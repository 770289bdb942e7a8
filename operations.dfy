/** `OperationsManager` of `render-deploy/public/birja/ro2rpj/operations.js`:
    every buy, sell, deposit or withdrawal goes through `createOperation`,
    which runs it on the balance ledger and records the outcome, newest
    first, whether it succeeded or not. */
module Operations {
  import opened Wrappers
  import opened Seqs
  import opened Holdings
  import opened Accounts
  import opened BalanceLedger

  datatype Status = Pending | Completed | Failed | Cancelled

  /** The fields of an operation's `data` that the executors read. */
  datatype OpData = OpData(assetId: string, usdAmount: real, cryptoAmount: real, amount: real, payMethod: string)

  /** The fields of an operation's `result` that the queries read; a field
      the ledger's result object does not have is None. */
  datatype OpResult = OpResult(totalValue: Option<real>, commission: Option<real>)

  datatype OpError = UnknownType | Ledger(BalanceError) | NotFound | NotCancellable | NotRetryable

  datatype Operation = Operation(id: string, kind: string, data: OpData, timestamp: int, status: Status,
                                 result: Option<OpResult>, error: Option<OpError>)

  /** JavaScript truthiness of a number field: present and not 0. */
  predicate Truthy(x: Option<real>) {
    x.Some? && x.value != 0.0
  }

  /** `op.result && op.result.totalValue`. */
  predicate HasVolume(op: Operation) {
    op.result.Some? && Truthy(op.result.value.totalValue)
  }

  function Volume(op: Operation): real {
    if HasVolume(op) then op.result.value.totalValue.value else 0.0
  }

  predicate KnownKind(kind: string) {
    kind == "buy" || kind == "sell" || kind == "deposit" || kind == "withdraw"
  }

  /** The error the balance ledger throws for an operation of a known kind,
      in the order of its checks, or None when the ledger carries it out. */
  function Refusal(kind: string, data: OpData, a: Option<AccountRecord>, prices: map<string, real>): Option<BalanceError>
    requires KnownKind(kind)
  {
    if kind == "buy" then BuyRefusal(a, prices, data.assetId, data.usdAmount)
    else if kind == "sell" then SellRefusal(a, prices, data.assetId, data.cryptoAmount)
    else if kind == "deposit" then DepositRefusal(a, data.amount)
    else WithdrawRefusal(a, data.amount)
  }

  /** The account after the ledger carries out an operation it does not
      refuse: a deposit or withdrawal moves only the cash, a purchase pays
      the amount plus commission, a sale is credited its proceeds less
      commission. */
  function Applied(kind: string, data: OpData, a: AccountRecord, prices: map<string, real>): (r: AccountRecord)
    requires KnownKind(kind) && Positive(prices) && WellFormed(a) && Refusal(kind, data, Some(a), prices).None?
    ensures kind == "deposit" ==> r == a.(balance := a.balance + data.amount)
    ensures kind == "withdraw" ==> r == a.(balance := a.balance - data.amount) && r.balance >= 0.0 && data.amount > 0.0
    ensures kind == "buy" ==> r.balance == a.balance - 1.0025 * data.usdAmount && r.balance >= 0.0 &&
                              Get(r.portfolio.assets, data.assetId).Some?
    ensures kind == "sell" ==> r.balance > a.balance
  {
    if kind == "buy" then AfterBuy(a, data.assetId, data.usdAmount, prices)
    else if kind == "sell" then
      (SaleCharges(data.cryptoAmount, prices[data.assetId], 0.0);
       AfterSell(a, data.assetId, data.cryptoAmount, prices))
    else if kind == "deposit" then a.(balance := a.balance + data.amount)
    else a.(balance := a.balance - data.amount)
  }

  /** What the `switch` of `createOperation` yields: the error of an unknown
      type or of a refusal, or the ledger's result, whose commission is the
      one charged. */
  function Outcome(kind: string, data: OpData, a: Option<AccountRecord>, prices: map<string, real>): (r: Result<OpResult, OpError>)
    ensures r == Failure(UnknownType) <==> !KnownKind(kind)
    ensures KnownKind(kind) ==> (r.Success? <==> Refusal(kind, data, a, prices).None?)
    ensures KnownKind(kind) && r.Failure? ==> r.error == Ledger(Refusal(kind, data, a, prices).value)
    ensures r.Success? ==> r.value.totalValue.None? && a.Some?
    ensures r.Success? && kind == "buy" ==> data.assetId in prices && Truthy(r.value.commission)
    ensures r.Success? && kind == "sell" ==> data.assetId in prices && r.value.commission.Some?
    ensures r.Success? && (kind == "deposit" || kind == "withdraw") ==> r.value.commission.None?
  {
    if !KnownKind(kind) then Failure(UnknownType)
    else match Refusal(kind, data, a, prices)
      case Some(e) => Failure(Ledger(e))
      case None =>
        if kind == "buy" then Success(OpResult(None, Some(data.usdAmount * CommissionRate)))
        else if kind == "sell" then Success(OpResult(None, Some(SaleOf(data.cryptoAmount, prices[data.assetId], 0.0).commission)))
        else Success(OpResult(None, None))
  }

  /** The operation `createOperation` records for an outcome. */
  function Recorded(id: string, kind: string, data: OpData, now: int, outcome: Result<OpResult, OpError>): (r: Operation)
    ensures r.status == Completed <==> outcome.Success?
    ensures r.status == Failed <==> outcome.Failure?
    ensures outcome.Success? ==> r.result == Some(outcome.value) && r.error.None?
    ensures outcome.Failure? ==> r.result.None? && r.error == Some(outcome.error)
  {
    match outcome
    case Success(result) => Operation(id, kind, data, now, Completed, Some(result), None)
    case Failure(e) => Operation(id, kind, data, now, Failed, None, Some(e))
  }

  /** The transaction the ledger puts first in its list when it carries out
      an operation: a purchase records the coins bought and its commission,
      a sale the units sold and its commission, a deposit or withdrawal the
      dollar amount at price 1 with no fee. */
  function Entry(kind: string, data: OpData, prices: map<string, real>, txId: string, now: int): (r: LedgerTx)
    requires KnownKind(kind) && Positive(prices)
    requires kind == "buy" || kind == "sell" ==> data.assetId in prices
    ensures r.id == txId && r.txType == kind && r.timestamp == now
    ensures kind == "buy" || kind == "sell" ==>
              r.assetId == Some(data.assetId) && r.price == prices[data.assetId] && r.payMethod.None?
    ensures kind == "buy" ==> r.fee == data.usdAmount * CommissionRate &&
                              r.amount == PurchaseOf(data.usdAmount, prices[data.assetId], 0.0).cryptoAmount
    ensures kind == "sell" ==> r.amount == data.cryptoAmount && r.totalValue == SaleOf(data.cryptoAmount, r.price, 0.0).usdValue &&
                               r.fee == r.totalValue * CommissionRate
    ensures kind == "deposit" || kind == "withdraw" ==>
              r.assetId.None? && r.amount == data.amount && r.totalValue == data.amount && r.fee == 0.0 &&
              r.payMethod == Some(data.payMethod)
  {
    if kind == "buy" then
      var price := prices[data.assetId];
      NewTx(txId, kind, Some(data.assetId), PurchaseOf(data.usdAmount, price, 0.0).cryptoAmount, price,
            data.usdAmount * CommissionRate, None, now)
    else if kind == "sell" then
      var price := prices[data.assetId];
      NewTx(txId, kind, Some(data.assetId), data.cryptoAmount, price, SaleOf(data.cryptoAmount, price, 0.0).commission, None, now)
    else NewTx(txId, kind, None, data.amount, 1.0, 0.0, Some(data.payMethod), now)
  }

  /** A deposit followed by a withdrawal of the same amount, on an account
      with no debt, leaves the account as it was. */
  lemma DepositThenWithdraw(data: OpData, a: AccountRecord, prices: map<string, real>)
    requires Positive(prices) && WellFormed(a) && a.balance >= 0.0
    requires DepositRefusal(Some(a), data.amount).None?
    ensures Refusal("withdraw", data, Some(Applied("deposit", data, a, prices)), prices).None?
    ensures Applied("withdraw", data, Applied("deposit", data, a, prices), prices) == a
  {
  }

  /** `getOperationHistory(filter, limit)`. */
  function History(ops: seq<Operation>, filter: string, limit: int): (r: seq<Operation>)
    ensures limit >= 0 ==> |r| <= limit
    ensures forall i :: 0 <= i < |r| ==> filter == "all" || r[i].kind == filter
    ensures SubsequenceOf(r, ops)
    ensures var matches := if filter == "all" then ops else Filter(ops, OfKind(filter));
            |r| <= |matches| && r == matches[..|r|] &&
            (limit >= 0 ==> |r| == if limit < |matches| then limit else |matches|)
  {
    FilterSlice(ops, filter == "all", OfKind(filter), limit)
  }

  function OfKind(kind: string): Operation -> bool {
    (op: Operation) => op.kind == kind
  }

  /** `getOperationsByPeriod(start, end)`, on timestamps. */
  function ByPeriod(ops: seq<Operation>, start: int, end: int): (r: seq<Operation>)
    ensures forall op :: op in r <==> op in ops && start <= op.timestamp <= end
  {
    var p := (op: Operation) => start <= op.timestamp <= end;
    FilterExactly(ops, p);
    Filter(ops, p)
  }

  /** `getOperationsByStatus(status)`; `getFailedOperations` and
      `getPendingOperations` are this with a fixed status. */
  function ByStatus(ops: seq<Operation>, status: Status): (r: seq<Operation>)
    ensures forall op :: op in r <==> op in ops && op.status == status
  {
    var p := (op: Operation) => op.status == status;
    FilterExactly(ops, p);
    Filter(ops, p)
  }

  /** `getOperationsByAmountRange(min, max)`: only operations whose result
      has a non-zero `totalValue`, with inclusive bounds. */
  function ByAmountRange(ops: seq<Operation>, min: real, max: real): (r: seq<Operation>)
    ensures forall op :: op in r <==>
              op in ops && HasVolume(op) && min <= op.result.value.totalValue.value <= max
  {
    var p := (op: Operation) => HasVolume(op) && min <= op.result.value.totalValue.value <= max;
    FilterExactly(ops, p);
    Filter(ops, p)
  }

  /** `getOperationsByFeeRange(min, max)`: the same on `commission`. */
  function ByFeeRange(ops: seq<Operation>, min: real, max: real): (r: seq<Operation>)
    ensures forall op :: op in r <==>
              op in ops && op.result.Some? && Truthy(op.result.value.commission) &&
              min <= op.result.value.commission.value <= max
  {
    var p := (op: Operation) => op.result.Some? && Truthy(op.result.value.commission) &&
                                min <= op.result.value.commission.value <= max;
    FilterExactly(ops, p);
    Filter(ops, p)
  }

  function KindOf(op: Operation): string {
    op.kind
  }

  datatype OpStats = OpStats(total: nat, completed: nat, failed: nat, pending: nat, byType: Tally<string>,
                             totalVolume: real, averageVolume: real)

  function HasStatus(status: Status): Operation -> bool {
    (op: Operation) => op.status == status
  }

  /** What `getOperationStats` reports; `stats[op.status]++` on a cancelled
      operation only adds a NaN `cancelled` field, which is not modelled. */
  function StatsOf(ops: seq<Operation>): OpStats {
    var volume := Sum(ops, Volume);
    OpStats(|ops|, Count(ops, HasStatus(Completed)), Count(ops, HasStatus(Failed)),
            Count(ops, HasStatus(Pending)), TallyBy(ops, KindOf), volume,
            if |ops| > 0 then volume / |ops| as real else 0.0)
  }

  /** The status counts never exceed the total and the per-type counts add
      up to it. */
  lemma StatsCounts(ops: seq<Operation>)
    ensures StatsOf(ops).completed + StatsOf(ops).failed + StatsOf(ops).pending <= StatsOf(ops).total
    ensures TallyTotal(StatsOf(ops).byType) == StatsOf(ops).total
  {
    StatusCountsBound(ops);
    TallyCounts(ops, KindOf, "");
  }

  /** The average volume times the count is the volume, and 0 for none. */
  lemma StatsAverage(ops: seq<Operation>)
    ensures |ops| > 0 ==> StatsOf(ops).averageVolume * |ops| as real == StatsOf(ops).totalVolume
    ensures |ops| == 0 ==> StatsOf(ops).averageVolume == 0.0
  {
    if |ops| > 0 {
      QuotientTimesCount(Sum(ops, Volume), |ops|);
    }
  }

  lemma QuotientTimesCount(x: real, n: nat)
    requires n > 0
    ensures x / n as real * n as real == x
  {
  }

  lemma {:induction false} StatusCountsBound(ops: seq<Operation>)
    ensures Count(ops, HasStatus(Completed)) + Count(ops, HasStatus(Failed)) + Count(ops, HasStatus(Pending)) <= |ops|
  {
    if ops != [] {
      StatusCountsBound(ops[1..]);
    }
  }

  /** `Date.now() - daysToKeep * 24 * 60 * 60 * 1000`. */
  function Cutoff(now: int, daysToKeep: int): int {
    now - daysToKeep * 24 * 60 * 60 * 1000
  }

  /** `class OperationsManager`. */
  class OperationsManager {
    const ledger: BalanceManager
    /** Newest first. */
    var operations: seq<Operation>

    ghost predicate Valid()
      reads this, ledger, ledger.accounts
    {
      ledger.accounts.Valid() && Positive(ledger.prices)
    }

    /** The manager over `ledger`, with the operations `loadTransactions`
        read back. */
    constructor (ledger: BalanceManager, saved: seq<Operation>)
      ensures this.ledger == ledger && operations == saved
    {
      this.ledger := ledger;
      operations := saved;
    }

    /** The `switch` of `createOperation`: runs the operation on the ledger. */
    method Execute(kind: string, data: OpData, txId: string, now: int) returns (r: Result<OpResult, OpError>)
      requires Valid()
      modifies ledger, ledger.accounts
      ensures Valid()
      ensures r == Failure(UnknownType) <==> !KnownKind(kind)
      ensures !KnownKind(kind) ==> ledger.transactions == old(ledger.transactions) &&
                                   ledger.accounts.currentAccount == old(ledger.accounts.currentAccount) &&
                                   ledger.accounts.stored == old(ledger.accounts.stored)
      ensures r == Outcome(kind, data, old(ledger.accounts.currentAccount), ledger.prices)
      ensures r.Failure? ==> ledger.accounts.currentAccount == old(ledger.accounts.currentAccount) &&
                             ledger.accounts.stored == old(ledger.accounts.stored) &&
                             ledger.transactions == old(ledger.transactions)
      ensures r.Success? ==> ledger.accounts.currentAccount ==
                               Some(Applied(kind, data, old(ledger.accounts.currentAccount).value, ledger.prices)) &&
                             ledger.accounts.stored == ledger.accounts.currentAccount &&
                             ledger.transactions == [Entry(kind, data, ledger.prices, txId, now)] + old(ledger.transactions)
      ensures ledger.accounts.isAuthenticated == old(ledger.accounts.isAuthenticated)
    {
      if kind == "buy" {
        var res := ledger.BuyAsset(data.assetId, data.usdAmount, txId, now);
        match res
        case Success(receipt) => return Success(OpResult(None, Some(receipt.commission)));
        case Failure(e) => return Failure(Ledger(e));
      } else if kind == "sell" {
        var res := ledger.SellAsset(data.assetId, data.cryptoAmount, txId, now);
        match res
        case Success(receipt) => return Success(OpResult(None, Some(receipt.commission)));
        case Failure(e) => return Failure(Ledger(e));
      } else if kind == "deposit" {
        var res := ledger.Deposit(data.amount, data.payMethod, txId, now);
        match res
        case Success(_) => return Success(OpResult(None, None));
        case Failure(e) => return Failure(Ledger(e));
      } else if kind == "withdraw" {
        var res := ledger.Withdraw(data.amount, data.payMethod, txId, now);
        match res
        case Success(_) => return Success(OpResult(None, None));
        case Failure(e) => return Failure(Ledger(e));
      }
      return Failure(UnknownType);
    }

    /** `createOperation`: the operation is recorded first in the list,
        completed with its result or failed with its error; the error is then
        rethrown. */
    method CreateOperation(kind: string, data: OpData, id: string, txId: string, now: int)
      returns (r: Result<Operation, OpError>)
      requires Valid()
      modifies this, ledger, ledger.accounts
      ensures Valid()
      ensures |operations| == |old(operations)| + 1 && operations[1..] == old(operations)
      ensures var op := operations[0];
              op.id == id && op.kind == kind && op.data == data && op.timestamp == now &&
              (op.status == Completed || op.status == Failed) &&
              (op.status == Completed <==> r.Success?) &&
              (r.Success? ==> r.value == op && op.result.Some? && op.error.None?) &&
              (r.Failure? ==> op.result.None? && op.error == Some(r.error))
      ensures r == Failure(UnknownType) <==> !KnownKind(kind)
      ensures !HasVolume(operations[0])
      ensures operations[0] == Recorded(id, kind, data, now, Outcome(kind, data, old(ledger.accounts.currentAccount), ledger.prices))
      ensures r.Failure? ==> r.error == Outcome(kind, data, old(ledger.accounts.currentAccount), ledger.prices).error &&
                             ledger.accounts.currentAccount == old(ledger.accounts.currentAccount) &&
                             ledger.accounts.stored == old(ledger.accounts.stored) &&
                             ledger.transactions == old(ledger.transactions)
      ensures r.Success? ==> ledger.accounts.currentAccount ==
                               Some(Applied(kind, data, old(ledger.accounts.currentAccount).value, ledger.prices)) &&
                             ledger.accounts.stored == ledger.accounts.currentAccount &&
                             ledger.transactions == [Entry(kind, data, ledger.prices, txId, now)] + old(ledger.transactions)
      ensures ledger.accounts.isAuthenticated == old(ledger.accounts.isAuthenticated)
    {
      var outcome := Execute(kind, data, txId, now);
      var op: Operation;
      match outcome {
        case Success(result) =>
          op := Operation(id, kind, data, now, Completed, Some(result), None);
          r := Success(op);
        case Failure(e) =>
          op := Operation(id, kind, data, now, Failed, None, Some(e));
          r := Failure(e);
      }
      operations := [op] + operations;
    }

    /** `getOperationById`: the first operation with that id. */
    function FindOperation(id: string): (r: Option<nat>)
      reads this
      ensures r.Some? ==> r.value < |operations| && operations[r.value].id == id &&
                          forall j :: 0 <= j < r.value ==> operations[j].id != id
      ensures r.None? ==> forall j :: 0 <= j < |operations| ==> operations[j].id != id
    {
      IndexOf(operations, id)
    }

    /** `cancelOperation`: only a pending operation can be cancelled, and
        only its status changes. */
    method CancelOperation(id: string) returns (r: Result<Operation, OpError>)
      modifies this
      ensures var found := old(FindOperation(id));
              (found.None? ==> r == Failure(NotFound)) &&
              (found.Some? && old(operations)[found.value].status != Pending ==> r == Failure(NotCancellable)) &&
              (found.Some? && old(operations)[found.value].status == Pending ==> r.Success?) &&
              (r.Failure? ==> operations == old(operations)) &&
              (r.Success? ==> found.Some? && old(operations)[found.value].status == Pending &&
                              r.value == old(operations)[found.value].(status := Cancelled) &&
                              operations == old(operations)[found.value := r.value])
    {
      var found := FindOperation(id);
      if found.None? {
        return Failure(NotFound);
      }
      var op := operations[found.value];
      if op.status != Pending {
        return Failure(NotCancellable);
      }
      op := op.(status := Cancelled);
      operations := operations[found.value := op];
      return Success(op);
    }

    /** `retryOperation`: only a failed operation is retried, as a new
        operation with the same type and data. */
    method RetryOperation(id: string, newId: string, txId: string, now: int) returns (r: Result<Operation, OpError>)
      requires Valid()
      modifies this, ledger, ledger.accounts
      ensures Valid()
      ensures var found := old(FindOperation(id));
              (found.None? ==> r == Failure(NotFound) && operations == old(operations)) &&
              (found.Some? && old(operations)[found.value].status != Failed ==>
                 r == Failure(NotRetryable) && operations == old(operations)) &&
              (found.Some? && old(operations)[found.value].status == Failed ==>
                 |operations| > 0 && operations[1..] == old(operations) && operations[0].kind == old(operations)[found.value].kind &&
                 operations[0].data == old(operations)[found.value].data && operations[0].id == newId)
      ensures var found := old(FindOperation(id));
              found.None? || old(operations)[found.value].status != Failed ==>
                ledger.accounts.currentAccount == old(ledger.accounts.currentAccount) &&
                ledger.accounts.stored == old(ledger.accounts.stored) &&
                ledger.transactions == old(ledger.transactions)
      ensures var found := old(FindOperation(id));
              found.Some? && old(operations)[found.value].status == Failed ==>
                var op := old(operations)[found.value];
                var outcome := Outcome(op.kind, op.data, old(ledger.accounts.currentAccount), ledger.prices);
                operations[0] == Recorded(newId, op.kind, op.data, now, outcome) &&
                (r.Success? <==> outcome.Success?) &&
                (outcome.Success? ==> ledger.accounts.currentAccount ==
                                        Some(Applied(op.kind, op.data, old(ledger.accounts.currentAccount).value, ledger.prices)) &&
                                      ledger.accounts.stored == ledger.accounts.currentAccount &&
                                      ledger.transactions == [Entry(op.kind, op.data, ledger.prices, txId, now)] +
                                                             old(ledger.transactions)) &&
                (outcome.Failure? ==> r.error == outcome.error &&
                                      ledger.accounts.currentAccount == old(ledger.accounts.currentAccount) &&
                                      ledger.accounts.stored == old(ledger.accounts.stored) &&
                                      ledger.transactions == old(ledger.transactions))
      ensures ledger.accounts.isAuthenticated == old(ledger.accounts.isAuthenticated)
    {
      var found := FindOperation(id);
      if found.None? {
        return Failure(NotFound);
      }
      var op := operations[found.value];
      if op.status != Failed {
        return Failure(NotRetryable);
      }
      r := CreateOperation(op.kind, op.data, newId, txId, now);
    }

    /** `getOperationStats`: one pass over the operations. */
    method OperationStats() returns (stats: OpStats)
      ensures stats == StatsOf(operations)
    {
      var completed, failed, pending := 0, 0, 0;
      var byType: Tally<string> := [];
      var volume := 0.0;
      var i := 0;
      while i < |operations|
        invariant 0 <= i <= |operations|
        invariant completed == Count(operations[..i], HasStatus(Completed))
        invariant failed == Count(operations[..i], HasStatus(Failed))
        invariant pending == Count(operations[..i], HasStatus(Pending))
        invariant byType == TallyBy(operations[..i], KindOf)
        invariant volume == Sum(operations[..i], Volume)
      {
        var op := operations[i];
        assert operations[..i + 1] == operations[..i] + [op];
        CountSnoc(operations[..i], op, HasStatus(Completed));
        CountSnoc(operations[..i], op, HasStatus(Failed));
        CountSnoc(operations[..i], op, HasStatus(Pending));
        match op.status {
          case Completed => completed := completed + 1;
          case Failed => failed := failed + 1;
          case Pending => pending := pending + 1;
          case Cancelled =>
        }
        byType := Bump(byType, op.kind);
        if op.result.Some? && Truthy(op.result.value.totalValue) {
          volume := volume + op.result.value.totalValue.value;
        }
        i := i + 1;
      }
      assert operations[..i] == operations;
      var total := |operations|;
      stats := OpStats(total, completed, failed, pending, byType, volume,
                       if total > 0 then volume / total as real else 0.0);
    }

    /** `cleanupOldOperations(daysToKeep)`: keeps exactly the operations newer
        than the cutoff and returns how many were dropped. */
    method CleanupOldOperations(daysToKeep: int, now: int) returns (removed: int)
      modifies this
      ensures operations == Filter(old(operations), (op: Operation) => op.timestamp > Cutoff(now, daysToKeep))
      ensures removed == |old(operations)| - |operations|
      ensures forall op :: op in operations <==> op in old(operations) && op.timestamp > Cutoff(now, daysToKeep)
    {
      var cutoff := Cutoff(now, daysToKeep);
      var originalLength := |operations|;
      var keep := (op: Operation) => op.timestamp > cutoff;
      FilterExactly(operations, keep);
      operations := Filter(operations, keep);
      return originalLength - |operations|;
    }
  }

  /** The first index holding an operation with `id`. */
  function IndexOf(ops: seq<Operation>, id: string): (r: Option<nat>)
    ensures r.Some? ==> r.value < |ops| && ops[r.value].id == id &&
                        forall j :: 0 <= j < r.value ==> ops[j].id != id
    ensures r.None? ==> forall j :: 0 <= j < |ops| ==> ops[j].id != id
  {
    if ops == [] then None
    else if ops[0].id == id then Some(0)
    else match IndexOf(ops[1..], id)
      case None => None
      case Some(k) => Some(k + 1)
  }

  /** No operation recorded by `createOperation` carries a `totalValue`,
      because none of the ledger's results has one; so
      `getOperationsByAmountRange` never returns an operation created in
      this session. */
  lemma CreatedOperationsOutsideAmountRanges(created: seq<Operation>, min: real, max: real)
    requires forall i :: 0 <= i < |created| ==> !HasVolume(created[i])
    ensures ByAmountRange(created, min, max) == []
    ensures StatsOf(created).totalVolume == 0.0
  {
    FilterNone(created, (op: Operation) => HasVolume(op) && min <= op.result.value.totalValue.value <= max);
    ZeroVolumes(created);
  }

  lemma {:induction false} ZeroVolumes(ops: seq<Operation>)
    requires forall i :: 0 <= i < |ops| ==> !HasVolume(ops[i])
    ensures Sum(ops, Volume) == 0.0
    decreases |ops|
  {
    if ops != [] {
      ZeroVolumes(ops[..|ops| - 1]);
    }
  }
}
