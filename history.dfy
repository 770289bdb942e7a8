/** `HistoryManager` of `public/birja/ro2rpj/history.js`: a newest-first log
    of records with type, period, amount and status queries, per-type and
    per-day counters, and pruning by age. */
module TradeHistory {
  import opened Wrappers
  import opened Seqs

  /** The fields of a record's `data` that the queries read; a missing
      field is None. */
  datatype RecordData = RecordData(amount: Option<real>, fee: Option<real>, assetId: Option<string>)

  datatype HistoryRecord = HistoryRecord(id: string, kind: string, data: RecordData, timestamp: int, status: string)

  /** `record.data && record.data.amount`: present and not 0. */
  predicate HasAmount(r: HistoryRecord) {
    r.data.amount.Some? && r.data.amount.value != 0.0
  }

  function AmountOf(r: HistoryRecord): real {
    if HasAmount(r) then r.data.amount.value else 0.0
  }

  function KindOf(r: HistoryRecord): string {
    r.kind
  }

  /** `getHistory(filter, limit)`. */
  function History(h: seq<HistoryRecord>, filter: string, limit: int): (r: seq<HistoryRecord>)
    ensures limit >= 0 ==> |r| <= limit
    ensures forall i :: 0 <= i < |r| ==> filter == "all" || r[i].kind == filter
    ensures SubsequenceOf(r, h)
    ensures var matches := if filter == "all" then h else Filter(h, OfKind(filter));
            |r| <= |matches| && r == matches[..|r|] &&
            (limit >= 0 ==> |r| == if limit < |matches| then limit else |matches|)
  {
    FilterSlice(h, filter == "all", OfKind(filter), limit)
  }

  function OfKind(kind: string): HistoryRecord -> bool {
    (x: HistoryRecord) => x.kind == kind
  }

  /** `getHistoryByPeriod(start, end)`, on timestamps, both ends included. */
  function ByPeriod(h: seq<HistoryRecord>, start: int, end: int): (r: seq<HistoryRecord>)
    ensures forall x :: x in r <==> x in h && start <= x.timestamp <= end
    ensures SubsequenceOf(r, h)
  {
    var p := (x: HistoryRecord) => start <= x.timestamp <= end;
    FilterExactly(h, p);
    FilterIsSubsequence(h, p);
    Filter(h, p)
  }

  /** `getHistoryByStatus(status)`. */
  function ByStatus(h: seq<HistoryRecord>, status: string): (r: seq<HistoryRecord>)
    ensures forall x :: x in r <==> x in h && x.status == status
  {
    var p := (x: HistoryRecord) => x.status == status;
    FilterExactly(h, p);
    Filter(h, p)
  }

  /** `getHistoryByAmountRange(min, max)`: records without a non-zero amount
      are left out; both bounds are included. */
  function ByAmountRange(h: seq<HistoryRecord>, min: real, max: real): (r: seq<HistoryRecord>)
    ensures forall x :: x in r <==> x in h && HasAmount(x) && min <= x.data.amount.value <= max
  {
    var p := (x: HistoryRecord) => HasAmount(x) && min <= x.data.amount.value <= max;
    FilterExactly(h, p);
    Filter(h, p)
  }

  /** `getLargestHistory(limit)`: records with an amount, largest first. */
  function Largest(h: seq<HistoryRecord>, limit: int): (r: seq<HistoryRecord>)
    ensures limit >= 0 ==> |r| <= limit
    ensures forall i :: 0 <= i < |r| ==> HasAmount(r[i]) && r[i] in h
    ensures SortedDesc(r, AmountOf)
  {
    TopBy(h, HasAmount, AmountOf, limit)
  }

  /** `getSmallestHistory(limit)`: records with an amount, smallest first. */
  function Smallest(h: seq<HistoryRecord>, limit: int): (r: seq<HistoryRecord>)
    ensures limit >= 0 ==> |r| <= limit
    ensures forall i :: 0 <= i < |r| ==> HasAmount(r[i]) && r[i] in h
    ensures forall i, j :: 0 <= i < j < |r| ==> AmountOf(r[i]) <= AmountOf(r[j])
  {
    var r := TopBy(h, HasAmount, NegatedAmount, limit);
    assert forall i, j :: 0 <= i < j < |r| ==> NegatedAmount(r[i]) >= NegatedAmount(r[j]);
    r
  }

  function NegatedAmount(r: HistoryRecord): real {
    -AmountOf(r)
  }

  /** `getLargestHistory` returns every record with an amount, up to
      `limit`, and no such record it leaves out is larger than one it
      returns. */
  lemma LargestSelects(h: seq<HistoryRecord>, limit: nat)
    ensures |Largest(h, limit)| == if limit < |Filter(h, HasAmount)| then limit else |Filter(h, HasAmount)|
    ensures var r := Largest(h, limit);
            forall x, i :: x in h && HasAmount(x) && x !in r && 0 <= i < |r| ==> AmountOf(x) <= AmountOf(r[i])
  {
    TopBySize(h, HasAmount, AmountOf, limit);
    TopByLeavesOutLower(h, HasAmount, AmountOf, limit);
  }

  /** `getSmallestHistory` returns every record with an amount, up to
      `limit`, and no such record it leaves out is smaller than one it
      returns. */
  lemma SmallestSelects(h: seq<HistoryRecord>, limit: nat)
    ensures |Smallest(h, limit)| == if limit < |Filter(h, HasAmount)| then limit else |Filter(h, HasAmount)|
    ensures var r := Smallest(h, limit);
            forall x, i :: x in h && HasAmount(x) && x !in r && 0 <= i < |r| ==> AmountOf(x) >= AmountOf(r[i])
  {
    TopBySize(h, HasAmount, NegatedAmount, limit);
    var r := Smallest(h, limit);
    forall x, i | x in h && HasAmount(x) && x !in r && 0 <= i < |r| ensures AmountOf(x) >= AmountOf(r[i]) {
      TopByLeavesOutLower(h, HasAmount, NegatedAmount, limit);
      assert NegatedAmount(x) <= NegatedAmount(r[i]);
    }
  }

  /** `getHistoryByFeeRange(min, max)`: records without a non-zero fee are
      left out; both bounds are included. */
  function ByFeeRange(h: seq<HistoryRecord>, min: real, max: real): (r: seq<HistoryRecord>)
    ensures forall x :: x in r <==> (x in h && x.data.fee.Some? && x.data.fee.value != 0.0
                                     && min <= x.data.fee.value <= max)
  {
    var p := (x: HistoryRecord) => x.data.fee.Some? && x.data.fee.value != 0.0 && min <= x.data.fee.value <= max;
    FilterExactly(h, p);
    Filter(h, p)
  }

  /** `getHistoryByAsset(assetId)`. */
  function ByAsset(h: seq<HistoryRecord>, assetId: string): (r: seq<HistoryRecord>)
    ensures forall x :: x in r <==> x in h && x.data.assetId == Some(assetId)
  {
    var p := (x: HistoryRecord) => x.data.assetId == Some(assetId);
    FilterExactly(h, p);
    Filter(h, p)
  }

  /** `getRecentHistory(limit)`: the newest `limit` records. */
  function Recent(h: seq<HistoryRecord>, limit: int): (r: seq<HistoryRecord>)
    ensures limit >= 0 ==> |r| == if limit < |h| then limit else |h|
    ensures |r| <= |h| && r == h[..|r|]
  {
    SliceTo(h, limit)
  }

  /** The day a record falls on, the key of the `byDay` counter. */
  function DayOfRecord(dayOf: int -> string): HistoryRecord -> string {
    (x: HistoryRecord) => dayOf(x.timestamp)
  }

  datatype DayCount = DayCount(date: string, count: nat)

  datatype HistoryStats = HistoryStats(total: nat, byType: Tally<string>, byDay: Tally<string>,
                                       totalVolume: real, averageVolume: real)

  /** What `getHistoryStats` reports. `dayOf` stands for
      `new Date(timestamp).toDateString()`, which depends on the time zone. */
  function StatsOf(h: seq<HistoryRecord>, dayOf: int -> string): HistoryStats {
    var volume := Sum(h, AmountOf);
    HistoryStats(|h|, TallyBy(h, KindOf), TallyBy(h, DayOfRecord(dayOf)), volume,
                 if |h| > 0 then volume / |h| as real else 0.0)
  }

  /** Both counters add up to the number of records. */
  lemma StatsCounts(h: seq<HistoryRecord>, dayOf: int -> string)
    ensures TallyTotal(StatsOf(h, dayOf).byType) == |h|
    ensures TallyTotal(StatsOf(h, dayOf).byDay) == |h|
  {
    TallyCounts(h, KindOf, "");
    TallyCounts(h, DayOfRecord(dayOf), "");
  }

  function DayKey(e: (string, nat)): real {
    e.1 as real
  }

  function KeepAll<T>(x: T): bool {
    true
  }

  /** `getTopActiveDays(limit)`: the busiest days of the `byDay` counter. */
  function TopActiveDays(byDay: Tally<string>, limit: int): (r: seq<DayCount>)
    ensures limit >= 0 ==> |r| <= limit
    ensures forall i, j :: 0 <= i < j < |r| ==> r[i].count >= r[j].count
    ensures forall i :: 0 <= i < |r| ==> (r[i].date, r[i].count) in byDay
  {
    var top := TopBy(byDay, KeepAll, DayKey, limit);
    DayCounts(top)
  }

  function DayCounts(top: Tally<string>): (r: seq<DayCount>)
    ensures |r| == |top| && forall i :: 0 <= i < |r| ==> r[i] == DayCount(top[i].0, top[i].1)
  {
    seq(|top|, i requires 0 <= i < |top| => DayCount(top[i].0, top[i].1))
  }

  /** `getTopActiveDays` returns every day of the counter, up to `limit`,
      and no day it leaves out is busier than one it returns. */
  lemma TopActiveDaysSelects(byDay: Tally<string>, limit: nat)
    ensures |TopActiveDays(byDay, limit)| == if limit < |byDay| then limit else |byDay|
    ensures var r := TopActiveDays(byDay, limit);
            forall e, i :: e in byDay && DayCount(e.0, e.1) !in r && 0 <= i < |r| ==> e.1 <= r[i].count
  {
    var top := TopBy(byDay, KeepAll, DayKey, limit);
    var r := TopActiveDays(byDay, limit);
    assert r == DayCounts(top);
    FilterKeepsAll(byDay, KeepAll);
    TopBySize(byDay, KeepAll, DayKey, limit);
    TopByLeavesOutLower(byDay, KeepAll, DayKey, limit);
    forall e, i | e in byDay && DayCount(e.0, e.1) !in r && 0 <= i < |r| ensures e.1 <= r[i].count {
      assert DayKey(e) <= DayKey(top[i]);
    }
  }

  /** `Date.now() - daysToKeep * 24 * 60 * 60 * 1000`. */
  function Cutoff(now: int, daysToKeep: int): int {
    now - daysToKeep * 24 * 60 * 60 * 1000
  }

  /** `class HistoryManager`. */
  class HistoryManager {
    /** Newest first. */
    var history: seq<HistoryRecord>

    /** The manager with the records `loadHistory` read back. */
    constructor (saved: seq<HistoryRecord>)
      ensures history == saved
    {
      history := saved;
    }

    /** `addHistoryRecord`: a completed record goes first; the rest is kept
        as it was. */
    method AddHistoryRecord(kind: string, data: RecordData, id: string, now: int) returns (record: HistoryRecord)
      modifies this
      ensures record == HistoryRecord(id, kind, data, now, "completed")
      ensures history == [record] + old(history)
    {
      record := HistoryRecord(id, kind, data, now, "completed");
      history := [record] + history;
    }

    /** `getHistoryStats`: one pass over the records. */
    method GetHistoryStats(dayOf: int -> string) returns (stats: HistoryStats)
      ensures stats == StatsOf(history, dayOf)
    {
      var byType: Tally<string> := [];
      var byDay: Tally<string> := [];
      var volume := 0.0;
      var i := 0;
      while i < |history|
        invariant 0 <= i <= |history|
        invariant byType == TallyBy(history[..i], KindOf)
        invariant byDay == TallyBy(history[..i], DayOfRecord(dayOf))
        invariant volume == Sum(history[..i], AmountOf)
      {
        var record := history[i];
        ghost var seen := history[..i + 1];
        assert seen[..i] == history[..i] && seen[i] == record;
        assert TallyBy(seen, KindOf) == Bump(TallyBy(history[..i], KindOf), record.kind);
        assert TallyBy(seen, DayOfRecord(dayOf)) == Bump(TallyBy(history[..i], DayOfRecord(dayOf)), dayOf(record.timestamp));
        byType := Bump(byType, record.kind);
        byDay := Bump(byDay, dayOf(record.timestamp));
        if record.data.amount.Some? && record.data.amount.value != 0.0 {
          volume := volume + record.data.amount.value;
        }
        assert Sum(seen, AmountOf) == Sum(history[..i], AmountOf) + AmountOf(record);
        i := i + 1;
      }
      assert history[..i] == history;
      var total := |history|;
      stats := HistoryStats(total, byType, byDay, volume, if total > 0 then volume / total as real else 0.0);
    }

    /** `cleanupOldHistory(daysToKeep)`: keeps exactly the records newer than
        the cutoff, in order, and returns how many were dropped. */
    method CleanupOldHistory(daysToKeep: int, now: int) returns (removed: int)
      modifies this
      ensures history == Filter(old(history), (x: HistoryRecord) => x.timestamp > Cutoff(now, daysToKeep))
      ensures forall x :: x in history <==> x in old(history) && x.timestamp > Cutoff(now, daysToKeep)
      ensures removed == |old(history)| - |history| && removed >= 0
    {
      var cutoff := Cutoff(now, daysToKeep);
      var originalLength := |history|;
      var keep := (x: HistoryRecord) => x.timestamp > cutoff;
      FilterExactly(history, keep);
      history := Filter(history, keep);
      return originalLength - |history|;
    }

    /** `clearHistory`. */
    method ClearHistory()
      modifies this
      ensures history == []
    {
      history := [];
    }
  }
}
