/** `EarningsManager` of `public/birja/ro2rpj/earnings.js`: a newest-first
    log of earnings whose running total is kept equal to the sum of the
    logged amounts, with per-type, per-source and per-day buckets. */
module Earnings {
  import opened Wrappers
  import opened Seqs

  /** The fields of `details` that the queries read. */
  datatype Details = Details(assetId: Option<string>, status: Option<string>)

  datatype EarningRecord = EarningRecord(id: string, kind: string, amount: real, source: string,
                                         details: Details, timestamp: int)

  function AmountOf(r: EarningRecord): real {
    r.amount
  }

  function KindOf(r: EarningRecord): string {
    r.kind
  }

  function SourceOf(r: EarningRecord): string {
    r.source
  }

  /** `{ count, amount }` of one key of `byType`, `bySource` or `byDay`. */
  datatype Bucket = Bucket(count: nat, amount: real)

  /** A JavaScript object of buckets, in the order its keys were first met. */
  type Buckets = seq<(string, Bucket)>

  /** One record counted into the bucket of key `k`, created empty when
      missing. */
  function AddTo(t: Buckets, k: string, amount: real): (r: Buckets)
    ensures TotalCount(r) == TotalCount(t) + 1
    ensures TotalAmount(r) == TotalAmount(t) + amount
    ensures forall e :: e in t && e.0 != k ==> e in r
  {
    if t == [] then [(k, Bucket(1, amount))]
    else if t[0].0 == k then [(k, Bucket(t[0].1.count + 1, t[0].1.amount + amount))] + t[1..]
    else [t[0]] + AddTo(t[1..], k, amount)
  }

  function TotalCount(t: Buckets): nat {
    if t == [] then 0 else t[0].1.count + TotalCount(t[1..])
  }

  function TotalAmount(t: Buckets): real {
    if t == [] then 0.0 else t[0].1.amount + TotalAmount(t[1..])
  }

  /** The buckets after visiting `h` in order, keyed by `key`. */
  function BucketsBy(h: seq<EarningRecord>, key: EarningRecord -> string): Buckets
    decreases |h|
  {
    if h == [] then [] else AddTo(BucketsBy(h[..|h| - 1], key), key(h[|h| - 1]), h[|h| - 1].amount)
  }

  /** Whatever the key, the buckets count every record once and carry the
      whole sum of the amounts. */
  lemma {:induction false} BucketsTotals(h: seq<EarningRecord>, key: EarningRecord -> string)
    ensures TotalCount(BucketsBy(h, key)) == |h|
    ensures TotalAmount(BucketsBy(h, key)) == Sum(h, AmountOf)
    decreases |h|
  {
    if h != [] {
      BucketsTotals(h[..|h| - 1], key);
    }
  }

  /** `Math.max(...amounts)` of a non-empty history. */
  function MaxAmount(h: seq<EarningRecord>): real
    requires |h| > 0
    decreases |h|
  {
    if |h| == 1 then h[0].amount
    else
      var m := MaxAmount(h[..|h| - 1]);
      if h[|h| - 1].amount > m then h[|h| - 1].amount else m
  }

  /** `Math.min(...amounts)` of a non-empty history. */
  function MinAmount(h: seq<EarningRecord>): real
    requires |h| > 0
    decreases |h|
  {
    if |h| == 1 then h[0].amount
    else
      var m := MinAmount(h[..|h| - 1]);
      if h[|h| - 1].amount < m then h[|h| - 1].amount else m
  }

  /** The maximum is one of the amounts and bounds all of them. */
  lemma {:induction false} MaxAmountIsMax(h: seq<EarningRecord>)
    requires |h| > 0
    ensures exists i :: 0 <= i < |h| && h[i].amount == MaxAmount(h)
    ensures forall i :: 0 <= i < |h| ==> h[i].amount <= MaxAmount(h)
    decreases |h|
  {
    if |h| == 1 {
      assert h[0].amount == MaxAmount(h);
    } else {
      var init := h[..|h| - 1];
      MaxAmountIsMax(init);
      var i :| 0 <= i < |init| && init[i].amount == MaxAmount(init);
      if h[|h| - 1].amount <= MaxAmount(init) {
        assert h[i].amount == MaxAmount(h);
      } else {
        assert h[|h| - 1].amount == MaxAmount(h);
      }
      forall k | 0 <= k < |h| - 1 ensures h[k].amount <= MaxAmount(h) {
        assert h[k] == init[k];
      }
    }
  }

  /** The minimum is one of the amounts and bounds all of them. */
  lemma {:induction false} MinAmountIsMin(h: seq<EarningRecord>)
    requires |h| > 0
    ensures exists i :: 0 <= i < |h| && h[i].amount == MinAmount(h)
    ensures forall i :: 0 <= i < |h| ==> MinAmount(h) <= h[i].amount
    decreases |h|
  {
    if |h| == 1 {
      assert h[0].amount == MinAmount(h);
    } else {
      var init := h[..|h| - 1];
      MinAmountIsMin(init);
      var i :| 0 <= i < |init| && init[i].amount == MinAmount(init);
      if h[|h| - 1].amount >= MinAmount(init) {
        assert h[i].amount == MinAmount(h);
      } else {
        assert h[|h| - 1].amount == MinAmount(h);
      }
      forall k | 0 <= k < |h| - 1 ensures MinAmount(h) <= h[k].amount {
        assert h[k] == init[k];
      }
    }
  }

  /** A sum of `|h|` terms between two bounds lies between `|h|` times each. */
  lemma {:induction false} SumBetween(h: seq<EarningRecord>, lo: real, hi: real)
    requires forall i :: 0 <= i < |h| ==> lo <= h[i].amount <= hi
    ensures |h| as real * lo <= Sum(h, AmountOf) <= |h| as real * hi
    decreases |h|
  {
    if h != [] {
      var init := h[..|h| - 1];
      assert forall i :: 0 <= i < |init| ==> init[i] == h[i];
      SumBetween(init, lo, hi);
      assert |h| as real * lo == |init| as real * lo + lo;
      assert |h| as real * hi == |init| as real * hi + hi;
    }
  }

  lemma MulMonotone(n: real, a: real, b: real)
    requires n >= 0.0 && a <= b
    ensures n * a <= n * b
  {
  }

  /** A sum between `n` times two bounds has its mean between them. */
  lemma MeanBetween(sum: real, n: real, lo: real, hi: real)
    requires n > 0.0 && n * lo <= sum <= n * hi
    ensures lo <= sum / n <= hi
  {
    assert sum / n * n == sum;
    if sum / n < lo {
      MulMonotone(n, sum / n, lo);
    }
    if sum / n > hi {
      MulMonotone(n, hi, sum / n);
    }
  }

  datatype EarningsStats = EarningsStats(totalEarnings: real, totalRecords: nat,
                                         byType: Buckets, bySource: Buckets, byDay: Buckets,
                                         averageEarning: real, maxEarning: real, minEarning: real)

  /** What `getEarningsStats` reports for the stored total and history.
      `dayOf` stands for `new Date(timestamp).toDateString()`. */
  function StatsOf(totalEarnings: real, h: seq<EarningRecord>, dayOf: int -> string): EarningsStats {
    EarningsStats(totalEarnings, |h|, BucketsBy(h, KindOf), BucketsBy(h, SourceOf),
                  BucketsBy(h, (r: EarningRecord) => dayOf(r.timestamp)),
                  if |h| > 0 then Sum(h, AmountOf) / |h| as real else 0.0,
                  if |h| > 0 then MaxAmount(h) else 0.0,
                  if |h| > 0 then MinAmount(h) else 0.0)
  }

  /** The minimum is at most the average, which is at most the maximum;
      with no records all three are 0. */
  lemma StatsBounds(totalEarnings: real, h: seq<EarningRecord>, dayOf: int -> string)
    ensures var s := StatsOf(totalEarnings, h, dayOf);
      s.minEarning <= s.averageEarning <= s.maxEarning
    ensures |h| == 0 ==> var s := StatsOf(totalEarnings, h, dayOf);
      s.minEarning == 0.0 && s.averageEarning == 0.0 && s.maxEarning == 0.0
  {
    if |h| > 0 {
      MaxAmountIsMax(h);
      MinAmountIsMin(h);
      SumBetween(h, MinAmount(h), MaxAmount(h));
      MeanBetween(Sum(h, AmountOf), |h| as real, MinAmount(h), MaxAmount(h));
    }
  }

  /** Every bucket table counts all the records and all the amounts. */
  lemma StatsBucketTotals(totalEarnings: real, h: seq<EarningRecord>, dayOf: int -> string)
    ensures var s := StatsOf(totalEarnings, h, dayOf);
      TotalCount(s.byType) == |h| && TotalAmount(s.byType) == Sum(h, AmountOf)
      && TotalCount(s.bySource) == |h| && TotalAmount(s.bySource) == Sum(h, AmountOf)
      && TotalCount(s.byDay) == |h| && TotalAmount(s.byDay) == Sum(h, AmountOf)
  {
    BucketsTotals(h, KindOf);
    BucketsTotals(h, SourceOf);
    BucketsTotals(h, (r: EarningRecord) => dayOf(r.timestamp));
  }

  datatype TypeTotal = TypeTotal(kind: string, count: nat, amount: real)

  function BucketAmount(e: (string, Bucket)): real {
    e.1.amount
  }

  function AnyBucket(e: (string, Bucket)): bool {
    true
  }

  /** `getTopEarningTypes(limit)`: the types of `byType` with the largest
      amounts. */
  function TopEarningTypes(byType: Buckets, limit: int): (r: seq<TypeTotal>)
    ensures limit >= 0 ==> |r| <= limit
    ensures forall i, j :: 0 <= i < j < |r| ==> r[i].amount >= r[j].amount
    ensures forall i :: 0 <= i < |r| ==> (r[i].kind, Bucket(r[i].count, r[i].amount)) in byType
  {
    var top := TopBy(byType, AnyBucket, BucketAmount, limit);
    TypeTotals(top)
  }

  function TypeTotals(top: Buckets): (r: seq<TypeTotal>)
    ensures |r| == |top| && forall i :: 0 <= i < |r| ==> r[i] == TypeTotal(top[i].0, top[i].1.count, top[i].1.amount)
  {
    seq(|top|, i requires 0 <= i < |top| => TypeTotal(top[i].0, top[i].1.count, top[i].1.amount))
  }

  /** `getTopEarningTypes` returns every type of the counter, up to `limit`,
      and no type it leaves out earned more than one it returns. */
  lemma TopEarningTypesSelects(byType: Buckets, limit: nat)
    ensures |TopEarningTypes(byType, limit)| == if limit < |byType| then limit else |byType|
    ensures var r := TopEarningTypes(byType, limit);
            forall e, i :: e in byType && TypeTotal(e.0, e.1.count, e.1.amount) !in r && 0 <= i < |r| ==>
              e.1.amount <= r[i].amount
  {
    var top := TopBy(byType, AnyBucket, BucketAmount, limit);
    var r := TopEarningTypes(byType, limit);
    assert r == TypeTotals(top);
    FilterKeepsAll(byType, AnyBucket);
    TopBySize(byType, AnyBucket, BucketAmount, limit);
    TopByLeavesOutLower(byType, AnyBucket, BucketAmount, limit);
    forall e, i | e in byType && TypeTotal(e.0, e.1.count, e.1.amount) !in r && 0 <= i < |r|
      ensures e.1.amount <= r[i].amount
    {
      assert BucketAmount(e) <= BucketAmount(top[i]);
    }
  }

  /** `getEarningsByAmountRange(min, max)`, both bounds included. */
  function ByAmountRange(h: seq<EarningRecord>, min: real, max: real): (r: seq<EarningRecord>)
    ensures forall x :: x in r <==> x in h && min <= x.amount <= max
    ensures SubsequenceOf(r, h)
  {
    var p := (x: EarningRecord) => min <= x.amount <= max;
    FilterExactly(h, p);
    FilterIsSubsequence(h, p);
    Filter(h, p)
  }

  /** `getEarningsByType(type)`. */
  function ByType(h: seq<EarningRecord>, kind: string): (r: seq<EarningRecord>)
    ensures forall x :: x in r <==> x in h && x.kind == kind
  {
    var p := (x: EarningRecord) => x.kind == kind;
    FilterExactly(h, p);
    Filter(h, p)
  }

  /** `getEarningsBySource(source)`. */
  function BySource(h: seq<EarningRecord>, source: string): (r: seq<EarningRecord>)
    ensures forall x :: x in r <==> x in h && x.source == source
  {
    var p := (x: EarningRecord) => x.source == source;
    FilterExactly(h, p);
    Filter(h, p)
  }

  /** A bound of `getEarningsByPeriod(startDate, endDate)`: a date, or a
      value such as a period name or `undefined` whose conversion to a
      number is NaN, against which every comparison is false. */
  datatype DateArg = At(time: int) | NotANumber

  /** `getEarningsByPeriod(startDate, endDate)`, both ends included. */
  function ByDateRange(h: seq<EarningRecord>, start: DateArg, end: DateArg): (r: seq<EarningRecord>)
    ensures forall x :: x in r <==> x in h && start.At? && end.At? && start.time <= x.timestamp <= end.time
  {
    FilterExactly(h, Within(start, end));
    Filter(h, Within(start, end))
  }

  /** `recordDate >= startDate && recordDate <= endDate`. */
  function Within(start: DateArg, end: DateArg): EarningRecord -> bool {
    (x: EarningRecord) => start.At? && end.At? && start.time <= x.timestamp <= end.time
  }

  /** `getTodayEarnings` and its week, month and year siblings as written:
      the class defines `getEarningsByPeriod` twice and the second,
      two-date definition is the one in effect, so the period name lands in
      `startDate` and `endDate` is `undefined`. */
  function PeriodEarningsAsWritten(h: seq<EarningRecord>, period: string): (r: seq<EarningRecord>)
    ensures r == []
  {
    FilterNone(h, Within(NotANumber, NotANumber));
    ByDateRange(h, NotANumber, NotANumber)
  }

  /** The start of a named period, as the first, shadowed definition of
      `getEarningsByPeriod(period)` computes it; `startOfToday` stands for
      `new Date().setHours(0, 0, 0, 0)`. */
  function PeriodStart(period: string, now: int, startOfToday: int): int {
    if period == "today" then startOfToday
    else if period == "week" then now - 7 * 24 * 60 * 60 * 1000
    else if period == "month" then now - 30 * 24 * 60 * 60 * 1000
    else if period == "year" then now - 365 * 24 * 60 * 60 * 1000
    else 0
  }

  /** The evidently intended `getEarningsByPeriod(period)`: the records
      since the start of the period. */
  function ByPeriod(h: seq<EarningRecord>, period: string, now: int, startOfToday: int): (r: seq<EarningRecord>)
    ensures forall x :: x in r <==> x in h && x.timestamp >= PeriodStart(period, now, startOfToday)
    ensures SubsequenceOf(r, h)
  {
    var start := PeriodStart(period, now, startOfToday);
    var p := (x: EarningRecord) => x.timestamp >= start;
    FilterExactly(h, p);
    FilterIsSubsequence(h, p);
    Filter(h, p)
  }

  /** A record made today is missed by `getTodayEarnings` as written and
      found by the intended period query. */
  lemma TodayEarningsMissed(r: EarningRecord, now: int, startOfToday: int)
    requires startOfToday <= r.timestamp
    ensures PeriodEarningsAsWritten([r], "today") == []
    ensures ByPeriod([r], "today", now, startOfToday) == [r]
  {
    var got := ByPeriod([r], "today", now, startOfToday);
    assert r in got;
    assert |got| <= 1 by {
      FilterIsSubsequence([r], (x: EarningRecord) => x.timestamp >= startOfToday);
    }
  }

  /** `Date.now() - daysToKeep * 24 * 60 * 60 * 1000`. */
  function Cutoff(now: int, daysToKeep: int): int {
    now - daysToKeep * 24 * 60 * 60 * 1000
  }

  /** `class EarningsManager`: the `earnings` object's fields. */
  class EarningsManager {
    var totalEarnings: real
    /** Newest first. */
    var history: seq<EarningRecord>
    var lastUpdated: int

    /** The stored total is the sum of the logged amounts. */
    ghost predicate Valid()
      reads this
    {
      totalEarnings == Sum(history, AmountOf)
    }

    /** `loadEarnings` with nothing saved. */
    constructor (now: int)
      ensures Valid()
      ensures totalEarnings == 0.0 && history == [] && lastUpdated == now
    {
      totalEarnings := 0.0;
      history := [];
      lastUpdated := now;
    }

    /** `updateEarningsStats`: the total is recomputed from the history. */
    method UpdateEarningsStats(now: int)
      modifies this
      ensures Valid()
      ensures history == old(history) && lastUpdated == now
    {
      totalEarnings := Sum(history, AmountOf);
      lastUpdated := now;
    }

    /** `addEarningRecord`: the record goes first, and the total grows by
        exactly its amount. */
    method AddEarningRecord(kind: string, amount: real, source: string, details: Details,
                            id: string, now: int) returns (record: EarningRecord)
      requires Valid()
      modifies this
      ensures Valid()
      ensures record == EarningRecord(id, kind, amount, source, details, now)
      ensures history == [record] + old(history)
      ensures totalEarnings == old(totalEarnings) + amount
      ensures lastUpdated == now
    {
      record := EarningRecord(id, kind, amount, source, details, now);
      history := [record] + history;
      totalEarnings := totalEarnings + amount;
      UpdateEarningsStats(now);
      SumCons(record, old(history), AmountOf);
    }

    /** `getEarningsStats`: one pass filling the three bucket tables. */
    method GetEarningsStats(dayOf: int -> string) returns (stats: EarningsStats)
      ensures stats == StatsOf(totalEarnings, history, dayOf)
    {
      var average, maxEarning, minEarning := 0.0, 0.0, 0.0;
      if |history| > 0 {
        average := Sum(history, AmountOf) / |history| as real;
        maxEarning := MaxAmount(history);
        minEarning := MinAmount(history);
      }
      var byType: Buckets := [];
      var bySource: Buckets := [];
      var byDay: Buckets := [];
      var i := 0;
      while i < |history|
        invariant 0 <= i <= |history|
        invariant byType == BucketsBy(history[..i], KindOf)
        invariant bySource == BucketsBy(history[..i], SourceOf)
        invariant byDay == BucketsBy(history[..i], (r: EarningRecord) => dayOf(r.timestamp))
      {
        var record := history[i];
        assert history[..i + 1][..i] == history[..i];
        byType := AddTo(byType, record.kind, record.amount);
        bySource := AddTo(bySource, record.source, record.amount);
        byDay := AddTo(byDay, dayOf(record.timestamp), record.amount);
        i := i + 1;
      }
      assert history[..i] == history;
      stats := EarningsStats(totalEarnings, |history|, byType, bySource, byDay, average, maxEarning, minEarning);
    }

    /** `getLargestEarnings(limit)`: sorts the stored history itself, largest
        first, and returns its first `limit` records; the total stays the
        sum of the amounts. */
    method GetLargestEarnings(limit: int) returns (r: seq<EarningRecord>)
      requires Valid()
      modifies this
      ensures Valid()
      ensures history == SortDesc(old(history), AmountOf)
      ensures multiset(history) == multiset(old(history))
      ensures SortedDesc(history, AmountOf)
      ensures totalEarnings == old(totalEarnings) && lastUpdated == old(lastUpdated)
      ensures r == SliceTo(history, limit)
    {
      SortDescSorted(history, AmountOf);
      SumSortDesc(history, AmountOf, AmountOf);
      history := SortDesc(history, AmountOf);
      r := SliceTo(history, limit);
    }

    /** `getSmallestEarnings(limit)`: sorts the stored history itself,
        smallest first, and returns its first `limit` records. */
    method GetSmallestEarnings(limit: int) returns (r: seq<EarningRecord>)
      requires Valid()
      modifies this
      ensures Valid()
      ensures history == SortDesc(old(history), NegatedAmount)
      ensures multiset(history) == multiset(old(history))
      ensures forall i, j :: 0 <= i < j < |history| ==> history[i].amount <= history[j].amount
      ensures totalEarnings == old(totalEarnings) && lastUpdated == old(lastUpdated)
      ensures r == SliceTo(history, limit)
    {
      var sorted := SortDesc(history, NegatedAmount);
      SortDescSorted(history, NegatedAmount);
      SumSortDesc(history, NegatedAmount, AmountOf);
      AscendingByAmount(sorted);
      history := sorted;
      r := SliceTo(history, limit);
    }

    /** `cleanupOldEarnings(daysToKeep)`: keeps exactly the records newer than
        the cutoff, in order, recomputes the total and returns how many were
        dropped. */
    method CleanupOldEarnings(daysToKeep: int, now: int) returns (removed: int)
      modifies this
      ensures Valid()
      ensures history == Filter(old(history), (x: EarningRecord) => x.timestamp > Cutoff(now, daysToKeep))
      ensures forall x :: x in history <==> x in old(history) && x.timestamp > Cutoff(now, daysToKeep)
      ensures removed == |old(history)| - |history| && removed >= 0
      ensures lastUpdated == now
    {
      var cutoff := Cutoff(now, daysToKeep);
      var originalLength := |history|;
      var keep := (x: EarningRecord) => x.timestamp > cutoff;
      FilterExactly(history, keep);
      history := Filter(history, keep);
      UpdateEarningsStats(now);
      return originalLength - |history|;
    }

    /** `clearEarnings`. */
    method ClearEarnings(now: int)
      modifies this
      ensures Valid()
      ensures totalEarnings == 0.0 && history == [] && lastUpdated == now
    {
      totalEarnings := 0.0;
      history := [];
      lastUpdated := now;
    }
  }

  function NegatedAmount(r: EarningRecord): real {
    -r.amount
  }

  /** Largest negated amount first is smallest amount first. */
  lemma AscendingByAmount(s: seq<EarningRecord>)
    requires SortedDesc(s, NegatedAmount)
    ensures forall i, j :: 0 <= i < j < |s| ==> s[i].amount <= s[j].amount
  {
    forall i, j | 0 <= i < j < |s|
      ensures s[i].amount <= s[j].amount
    {
      assert NegatedAmount(s[i]) >= NegatedAmount(s[j]);
    }
  }
}
