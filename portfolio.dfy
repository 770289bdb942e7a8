/** `PortfolioManager` of `public/birja/ro2rpj/portfolio.js`: a book of
    weighted-average holdings with totals at the fixed price table, and the
    read-only views built from it (per-asset profit, rankings, distribution,
    summary statistics). */
module PortfolioManagement {
  import opened Wrappers
  import opened Seqs
  import opened Holdings

  /** `getAssetCurrentPrice`: `prices[assetId] || 0`. */
  function CurrentPrice(prices: map<string, real>, assetId: string): (r: real)
    ensures assetId !in prices ==> r == 0.0
    ensures assetId in prices ==> r == prices[assetId]
  {
    if assetId in prices then prices[assetId] else 0.0
  }

  /** `calculateAssetProfit` for a stored holding: current value less what
      was invested. For a holding whose investment is its average price
      times its balance, that is the balance times the price's distance from
      the average, so a held asset gains exactly when its price is above
      the average. */
  function HoldingProfit(h: Holding, price: real): (r: real)
    ensures r + h.totalInvested == h.balance * price
    ensures Consistent(h) ==> r == h.balance * (price - h.averagePrice)
    ensures Consistent(h) && h.balance > 0.0 ==> (r > 0.0 <==> price > h.averagePrice)
    ensures Consistent(h) && h.balance > 0.0 ==> (r < 0.0 <==> price < h.averagePrice)
  {
    ProfitSign(h, price);
    h.balance * price - h.totalInvested
  }

  /** The profit of a consistent holding is its balance times the gap
      between price and average, and so has the sign of that gap. */
  lemma ProfitSign(h: Holding, price: real)
    ensures Consistent(h) ==> h.balance * price - h.totalInvested == h.balance * (price - h.averagePrice)
    ensures h.balance > 0.0 ==> (h.balance * (price - h.averagePrice) > 0.0 <==> price > h.averagePrice)
    ensures h.balance > 0.0 ==> (h.balance * (price - h.averagePrice) < 0.0 <==> price < h.averagePrice)
  {
    var gap := price - h.averagePrice;
    assert h.balance * gap == h.balance * price - h.balance * h.averagePrice;
    if h.balance > 0.0 && gap > 0.0 {
      assert h.balance * gap > 0.0;
    } else if h.balance > 0.0 && gap < 0.0 {
      assert h.balance * gap < 0.0;
    }
  }

  /** `calculateAssetProfitPercent` for a stored holding: 0 unless something
      was invested. */
  function HoldingProfitPercent(h: Holding, price: real): (r: real)
    ensures h.totalInvested <= 0.0 ==> r == 0.0
    ensures h.totalInvested > 0.0 ==> r * h.totalInvested == HoldingProfit(h, price) * 100.0
    ensures h.totalInvested > 0.0 ==> (r > 0.0 <==> HoldingProfit(h, price) > 0.0)
  {
    if h.totalInvested <= 0.0 then 0.0 else HoldingProfit(h, price) / h.totalInvested * 100.0
  }

  /** One element of `getPortfolioAssets`. */
  datatype AssetView = AssetView(assetId: string, balance: real, averagePrice: real, totalInvested: real,
                                 currentPrice: real, currentValue: real, profit: real, profitPercent: real)

  function View(prices: map<string, real>, e: (string, Holding)): AssetView {
    var price := CurrentPrice(prices, e.0);
    AssetView(e.0, e.1.balance, e.1.averagePrice, e.1.totalInvested, price, e.1.balance * price,
              HoldingProfit(e.1, price), HoldingProfitPercent(e.1, price))
  }

  /** `getPortfolioAssets`: one view per holding, in the book's order. */
  function Views(prices: map<string, real>, assets: Book): (r: seq<AssetView>)
    ensures |r| == |assets|
    ensures forall i :: 0 <= i < |r| ==> r[i] == View(prices, assets[i])
  {
    if assets == [] then [] else [View(prices, assets[0])] + Views(prices, assets[1..])
  }

  /** What each ranking keeps and what it ranks by; a loss or a fall ranks
      by its size. */
  predicate Gaining(v: AssetView) { v.profit > 0.0 }
  predicate LosingMoney(v: AssetView) { v.profit < 0.0 }
  predicate Growing(v: AssetView) { v.profitPercent > 0.0 }
  predicate Falling(v: AssetView) { v.profitPercent < 0.0 }
  function Profit(v: AssetView): real { v.profit }
  function Loss(v: AssetView): real { -v.profit }
  function Growth(v: AssetView): real { v.profitPercent }
  function Fall(v: AssetView): real { -v.profitPercent }

  /** `getTopProfitableAssets`. */
  function TopProfitable(views: seq<AssetView>, limit: int): seq<AssetView> {
    TopBy(views, Gaining, Profit, limit)
  }

  /** `getLosingAssets`: the largest losses first. */
  function Losing(views: seq<AssetView>, limit: int): seq<AssetView> {
    TopBy(views, LosingMoney, Loss, limit)
  }

  /** `getTopGrowingAssets`. */
  function TopGrowing(views: seq<AssetView>, limit: int): seq<AssetView> {
    TopBy(views, Growing, Growth, limit)
  }

  /** `getTopFallingAssets`: the largest percentage falls first. */
  function TopFalling(views: seq<AssetView>, limit: int): seq<AssetView> {
    TopBy(views, Falling, Fall, limit)
  }

  /** `getTopProfitableAssets` lists the assets in profit, the largest profit
      first: all of them up to `limit`, and none it leaves out earns more than
      one it lists. */
  lemma TopProfitableSelects(views: seq<AssetView>, limit: nat)
    ensures |TopProfitable(views, limit)| ==
            (if limit < |Filter(views, Gaining)| then limit else |Filter(views, Gaining)|)
    ensures var r := TopProfitable(views, limit);
            (forall i :: 0 <= i < |r| ==> Gaining(r[i]) && r[i] in views) && SortedDesc(r, Profit)
    ensures var r := TopProfitable(views, limit);
            forall v, i :: v in views && Gaining(v) && v !in r && 0 <= i < |r| ==> Profit(v) <= Profit(r[i])
  {
    TopBySize(views, Gaining, Profit, limit);
    TopByLeavesOutLower(views, Gaining, Profit, limit);
  }

  /** `getLosingAssets` lists the assets at a loss, the largest loss first:
      all of them up to `limit`, and none it leaves out loses more than one
      it lists. */
  lemma LosingSelects(views: seq<AssetView>, limit: nat)
    ensures |Losing(views, limit)| ==
            (if limit < |Filter(views, LosingMoney)| then limit else |Filter(views, LosingMoney)|)
    ensures var r := Losing(views, limit);
            (forall i :: 0 <= i < |r| ==> LosingMoney(r[i]) && r[i] in views) && SortedDesc(r, Loss)
    ensures var r := Losing(views, limit);
            forall v, i :: v in views && LosingMoney(v) && v !in r && 0 <= i < |r| ==> Loss(v) <= Loss(r[i])
  {
    TopBySize(views, LosingMoney, Loss, limit);
    TopByLeavesOutLower(views, LosingMoney, Loss, limit);
  }

  /** `getTopGrowingAssets` lists the assets up in percentage terms, the
      largest rise first, all of them up to `limit`, and none it leaves out
      rose more than one it lists. */
  lemma TopGrowingSelects(views: seq<AssetView>, limit: nat)
    ensures |TopGrowing(views, limit)| ==
            (if limit < |Filter(views, Growing)| then limit else |Filter(views, Growing)|)
    ensures var r := TopGrowing(views, limit);
            (forall i :: 0 <= i < |r| ==> Growing(r[i]) && r[i] in views) && SortedDesc(r, Growth)
    ensures var r := TopGrowing(views, limit);
            forall v, i :: v in views && Growing(v) && v !in r && 0 <= i < |r| ==> Growth(v) <= Growth(r[i])
  {
    TopBySize(views, Growing, Growth, limit);
    TopByLeavesOutLower(views, Growing, Growth, limit);
  }

  /** `getTopFallingAssets` lists the assets down in percentage terms, the
      largest fall first, all of them up to `limit`, and none it leaves out
      fell more than one it lists. */
  lemma TopFallingSelects(views: seq<AssetView>, limit: nat)
    ensures |TopFalling(views, limit)| ==
            (if limit < |Filter(views, Falling)| then limit else |Filter(views, Falling)|)
    ensures var r := TopFalling(views, limit);
            (forall i :: 0 <= i < |r| ==> Falling(r[i]) && r[i] in views) && SortedDesc(r, Fall)
    ensures var r := TopFalling(views, limit);
            forall v, i :: v in views && Falling(v) && v !in r && 0 <= i < |r| ==> Fall(v) <= Fall(r[i])
  {
    TopBySize(views, Falling, Fall, limit);
    TopByLeavesOutLower(views, Falling, Fall, limit);
  }

  /** One element of `getPortfolioDistribution`; the display name and symbol
      are not modelled. */
  datatype Share = Share(assetId: string, value: real, percentage: real, balance: real)

  function Shares(views: seq<AssetView>, totalValue: real): (r: seq<Share>)
    ensures |r| == |views|
    ensures forall i :: 0 <= i < |r| ==> r[i].assetId == views[i].assetId && r[i].value == views[i].currentValue &&
                                         r[i].balance == views[i].balance
    ensures forall i :: 0 <= i < |r| ==>
              r[i].percentage == if totalValue > 0.0 then views[i].currentValue / totalValue * 100.0 else 0.0
  {
    if views == [] then []
    else
      var v := views[0];
      [Share(v.assetId, v.currentValue, if totalValue > 0.0 then v.currentValue / totalValue * 100.0 else 0.0, v.balance)]
      + Shares(views[1..], totalValue)
  }

  /** A share's percentage is its part of the total value, or 0 when the
      total is not positive. */
  ghost predicate PercentOfTotal(s: Share, totalValue: real) {
    (totalValue <= 0.0 ==> s.percentage == 0.0) &&
    (totalValue > 0.0 ==> s.percentage * totalValue == s.value * 100.0)
  }

  lemma {:induction false} SharesPercentOfTotal(views: seq<AssetView>, totalValue: real)
    ensures forall s :: s in Shares(views, totalValue) ==> PercentOfTotal(s, totalValue)
  {
    var shares := Shares(views, totalValue);
    forall i | 0 <= i < |shares| ensures PercentOfTotal(shares[i], totalValue) {
      if totalValue > 0.0 {
        QuotientTimesDivisor(views[i].currentValue, totalValue);
      }
    }
  }

  lemma QuotientTimesDivisor(x: real, d: real)
    requires d > 0.0
    ensures x / d * 100.0 * d == x * 100.0
  {
    assert x / d * d == x;
  }

  /** `getPortfolioDistribution`: the shares, largest value first. */
  function Distribution(views: seq<AssetView>, totalValue: real): (r: seq<Share>)
    ensures multiset(r) == multiset(Shares(views, totalValue))
    ensures SortedDesc(r, (s: Share) => s.value)
    ensures forall i :: 0 <= i < |r| ==> PercentOfTotal(r[i], totalValue)
  {
    var shares := Shares(views, totalValue);
    SortDescSorted(shares, (s: Share) => s.value);
    SharesPercentOfTotal(views, totalValue);
    var r := SortDesc(shares, (s: Share) => s.value);
    assert forall i :: 0 <= i < |r| ==> r[i] in multiset(shares);
    r
  }

  datatype PortfolioStats = PortfolioStats(totalAssets: nat, profitableAssets: nat, losingAssets: nat, winRate: real,
                                           totalValue: real, totalInvested: real, totalProfit: real,
                                           profitPercent: real, averageProfit: real)

  /** `getPortfolioStats` over the views and the stored totals. */
  function Stats(views: seq<AssetView>, totalValue: real, totalInvested: real, totalProfit: real,
                 profitPercent: real): (r: PortfolioStats)
    ensures r.totalAssets == |views|
    ensures r.profitableAssets == Count(views, (v: AssetView) => v.profit > 0.0)
    ensures r.losingAssets == Count(views, (v: AssetView) => v.profit < 0.0)
    ensures r.profitableAssets + r.losingAssets <= r.totalAssets
    ensures 0.0 <= r.winRate <= 100.0
    ensures r.totalAssets == 0 ==> r.winRate == 0.0 && r.averageProfit == 0.0
    ensures r.totalAssets > 0 ==> r.winRate * r.totalAssets as real == r.profitableAssets as real * 100.0
    ensures r.totalAssets > 0 ==> r.averageProfit * r.totalAssets as real == totalProfit
  {
    var total := |views|;
    var profitable := Count(views, (v: AssetView) => v.profit > 0.0);
    var losing := Count(views, (v: AssetView) => v.profit < 0.0);
    CountDisjoint(views, (v: AssetView) => v.profit > 0.0, (v: AssetView) => v.profit < 0.0);
    var winRate := if total > 0 then profitable as real / total as real * 100.0 else 0.0;
    ShareAtMostHundred(profitable, total);
    PortfolioStats(total, profitable, losing, winRate, totalValue, totalInvested, totalProfit, profitPercent,
                   if total > 0 then totalProfit / total as real else 0.0)
  }

  /** A part of a whole, in percent, lies in [0, 100]. */
  lemma ShareAtMostHundred(part: nat, whole: nat)
    requires part <= whole
    ensures whole > 0 ==> 0.0 <= part as real / whole as real * 100.0 <= 100.0
  {
    if whole > 0 {
      assert part as real / whole as real <= 1.0;
    }
  }

  datatype PortfolioError = InsufficientAssets

  /** `class PortfolioManager`; `prices` is `getAssetCurrentPrice`'s table. */
  class PortfolioManager {
    var assets: Book
    var totalValue: real
    var totalInvested: real
    var totalProfit: real
    var profitPercent: real
    const prices: map<string, real>

    ghost predicate Valid()
      reads this
    {
      UniqueKeys(assets) && PositiveBalances(assets) && AllConsistent(assets) && Positive(prices)
    }

    /** The totals as `updatePortfolioStats` leaves them. */
    ghost predicate StatsCurrent()
      reads this
    {
      totalValue == PricedValue(assets, prices) &&
      totalInvested == PricedInvested(assets, prices) &&
      totalProfit == totalValue - totalInvested &&
      profitPercent == ProfitPercent(totalValue, totalInvested)
    }

    /** A portfolio with nothing in it (`loadPortfolio` without saved data). */
    constructor ()
      ensures Valid() && StatsCurrent() && assets == [] && prices == AssetPrices
    {
      assets := [];
      totalValue, totalInvested, totalProfit, profitPercent := 0.0, 0.0, 0.0, 0.0;
      prices := AssetPrices;
      AssetPricesPositive();
    }

    /** `getAssetCurrentPrice`. */
    function AssetCurrentPrice(assetId: string): (r: real)
      requires Valid()
      reads this
      ensures r >= 0.0 && (r > 0.0 <==> assetId in prices)
    {
      CurrentPrice(prices, assetId)
    }

    /** `calculateAssetProfit`: 0 for an asset not held. */
    function AssetProfit(assetId: string): (r: real)
      reads this
      ensures Get(assets, assetId).None? ==> r == 0.0
      ensures Get(assets, assetId).Some? ==>
                r + Get(assets, assetId).value.totalInvested == Get(assets, assetId).value.balance * CurrentPrice(prices, assetId)
    {
      match Get(assets, assetId)
      case None => 0.0
      case Some(h) => HoldingProfit(h, CurrentPrice(prices, assetId))
    }

    /** `calculateAssetProfitPercent`: 0 for an asset not held or with
        nothing invested. */
    function AssetProfitPercent(assetId: string): (r: real)
      reads this
      ensures Get(assets, assetId).None? || Get(assets, assetId).value.totalInvested <= 0.0 ==> r == 0.0
      ensures Get(assets, assetId).Some? && Get(assets, assetId).value.totalInvested > 0.0 ==>
                r * Get(assets, assetId).value.totalInvested == AssetProfit(assetId) * 100.0
    {
      match Get(assets, assetId)
      case None => 0.0
      case Some(h) => HoldingProfitPercent(h, CurrentPrice(prices, assetId))
    }

    /** `getPortfolioAssets`. */
    function PortfolioAssets(): seq<AssetView>
      reads this
    {
      Views(prices, assets)
    }

    /** Each view carries the profit figures the per-asset queries give for
        its asset. */
    lemma ViewsAgreeWithQueries()
      requires Valid()
      ensures forall i :: 0 <= i < |assets| ==>
                PortfolioAssets()[i].assetId == assets[i].0 &&
                PortfolioAssets()[i].profit == AssetProfit(assets[i].0) &&
                PortfolioAssets()[i].profitPercent == AssetProfitPercent(assets[i].0)
    {
      forall i | 0 <= i < |assets|
        ensures PortfolioAssets()[i].profit == AssetProfit(assets[i].0)
        ensures PortfolioAssets()[i].profitPercent == AssetProfitPercent(assets[i].0)
      {
        GetMember(assets, assets[i]);
      }
    }

    /** `updatePortfolioStats`: totals over the assets with a price. */
    method UpdatePortfolioStats()
      modifies this
      ensures assets == old(assets)
      ensures StatsCurrent()
    {
      var value, invested := Totals(assets, prices);
      totalValue := value;
      totalInvested := invested;
      totalProfit := totalValue - totalInvested;
      profitPercent := if totalInvested > 0.0 then totalProfit / totalInvested * 100.0 else 0.0;
    }

    /** `addAsset`: a zeroed holding is created when absent, then the
        purchase is merged into it at the weighted average price. */
    method AddAsset(assetId: string, amount: real, price: real)
      requires Valid() && amount > 0.0
      modifies this
      ensures Valid() && StatsCurrent()
      ensures assets == Set(old(assets), assetId, Buy(Get(old(assets), assetId).GetOr(EmptyHolding), amount, price))
    {
      var asset := Get(assets, assetId).GetOr(EmptyHolding);
      BuyKeepsBook(assets, assetId, amount, price);
      assets := Set(assets, assetId, Buy(asset, amount, price));
      UpdatePortfolioStats();
    }

    /** `removeAsset`: throws for a missing or too small holding, changing
        nothing; otherwise sells at the average price and deletes the holding
        once nothing positive is left. */
    method RemoveAsset(assetId: string, amount: real) returns (r: Result<(), PortfolioError>)
      requires Valid()
      modifies this
      ensures Valid()
      ensures r.Success? <==> Get(old(assets), assetId).Some? && Get(old(assets), assetId).value.balance >= amount
      ensures r.Failure? ==> assets == old(assets) && totalValue == old(totalValue) &&
                             totalInvested == old(totalInvested) && totalProfit == old(totalProfit) &&
                             profitPercent == old(profitPercent)
      ensures r.Success? ==> StatsCurrent() &&
                             var h := Get(old(assets), assetId).value;
                             assets == if h.balance - amount <= 0.0 then Delete(old(assets), assetId)
                                       else Set(old(assets), assetId, Sell(h, amount))
    {
      var entry := Get(assets, assetId);
      if entry.None? || entry.value.balance < amount {
        return Failure(InsufficientAssets);
      }
      var asset := Sell(entry.value, amount);
      if asset.balance <= 0.0 {
        DeleteUnique(assets, assetId);
        assets := Delete(assets, assetId);
      } else {
        SetUnique(assets, assetId, asset);
        assets := Set(assets, assetId, asset);
      }
      UpdatePortfolioStats();
      return Success(());
    }

    /** `getTopProfitableAssets(limit)`. */
    function TopProfitableAssets(limit: int): seq<AssetView>
      reads this
    {
      TopProfitable(PortfolioAssets(), limit)
    }

    /** `getPortfolioDistribution`. */
    function PortfolioDistribution(): seq<Share>
      reads this
    {
      Distribution(PortfolioAssets(), totalValue)
    }

    /** `getPortfolioStats`. */
    function PortfolioStatistics(): PortfolioStats
      reads this
    {
      Stats(PortfolioAssets(), totalValue, totalInvested, totalProfit, profitPercent)
    }
  }
}
