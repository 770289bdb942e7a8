/** The client account store of `render-deploy/public/birja/ro2rpj/account.js`:
    one current account, an authenticated flag, and the copy saved under
    `currentUser` in local storage, which `login` reads back. The account
    object is a value here; every in-place field update becomes a new value
    assigned to `currentAccount`. */
module Accounts {
  import opened Wrappers
  import opened Holdings
  import opened Base64

  datatype PortfolioRecord = PortfolioRecord(totalValue: real, totalInvested: real, totalProfit: real,
                                             profitPercent: real, assets: Book)

  const EmptyPortfolio := PortfolioRecord(0.0, 0.0, 0.0, 0.0, [])

  datatype Statistics = Statistics(totalTrades: nat, totalVolume: real, averageTrade: real, winRate: real,
                                   totalProfit: real)

  const ZeroStatistics := Statistics(0, 0.0, 0.0, 0.0, 0.0)

  datatype AccountRecord = AccountRecord(id: string, name: string, email: string, password: string,
                                         balance: real, createdAt: int, lastLogin: int, isNew: bool,
                                         portfolio: PortfolioRecord, statistics: Statistics)

  /** What `updateTradeStats` reads of its argument; a missing field is None. */
  datatype TradeData = TradeData(volume: Option<real>, profit: Option<real>)

  /** `x || 0` on a number. */
  function OrZero(x: Option<real>): real {
    x.GetOr(0.0)
  }

  predicate Profitable(t: TradeData) {
    t.profit.Some? && t.profit.value > 0.0
  }

  /** The statistics after one more trade: the win rate is kept as a running
      fraction of profitable trades. */
  function RecordTrade(s: Statistics, t: TradeData): (r: Statistics)
    ensures r.totalTrades == s.totalTrades + 1
    ensures r.totalVolume == s.totalVolume + OrZero(t.volume)
    ensures r.averageTrade * r.totalTrades as real == r.totalVolume
    ensures r.totalProfit == s.totalProfit + OrZero(t.profit)
    ensures 0.0 <= s.winRate <= 1.0 ==> 0.0 <= r.winRate <= 1.0
    ensures r.winRate * r.totalTrades as real == s.winRate * s.totalTrades as real + (if Profitable(t) then 1.0 else 0.0)
  {
    var n := s.totalTrades + 1;
    var volume := s.totalVolume + OrZero(t.volume);
    var wins := s.winRate * (n - 1) as real + (if Profitable(t) then 1.0 else 0.0);
    assert 0.0 <= s.winRate <= 1.0 ==> 0.0 <= wins <= n as real by {
      if 0.0 <= s.winRate <= 1.0 {
        MulNonNegative(s.winRate, (n - 1) as real);
        MulNonNegative(1.0 - s.winRate, (n - 1) as real);
      }
    }
    Statistics(n, volume, volume / n as real, wins / n as real, s.totalProfit + OrZero(t.profit))
  }

  datatype AccountError = AccountNotFound | WrongCredentials | NotAuthorized | WrongPassword | InvalidCharacter

  /** A portfolio as the ledger code leaves it: one entry per asset, each with
      a positive balance. */
  ghost predicate WellFormed(a: AccountRecord) {
    UniqueKeys(a.portfolio.assets) && PositiveBalances(a.portfolio.assets)
  }

  /** `class AccountManager`. */
  class AccountManager {
    var currentAccount: Option<AccountRecord>
    var isAuthenticated: bool
    /** The account saved in local storage under `currentUser`. */
    var stored: Option<AccountRecord>

    /** Loads the saved account and is authenticated iff there is one. */
    constructor (saved: Option<AccountRecord>)
      requires saved.Some? ==> WellFormed(saved.value)
      ensures Valid()
      ensures currentAccount == saved && stored == saved && isAuthenticated == saved.Some?
    {
      currentAccount := saved;
      stored := saved;
      isAuthenticated := saved.Some?;
    }

    ghost predicate Valid()
      reads this
    {
      (currentAccount.Some? ==> WellFormed(currentAccount.value)) &&
      (stored.Some? ==> WellFormed(stored.value))
    }

    /** `isUserAuthenticated`. */
    predicate IsUserAuthenticated()
      reads this
    {
      isAuthenticated && currentAccount.Some?
    }

    /** `getBalance`: 0 without an account. */
    function GetBalance(): (r: real)
      reads this
      ensures currentAccount.None? ==> r == 0.0
      ensures currentAccount.Some? ==> r == currentAccount.value.balance
    {
      if currentAccount.Some? then currentAccount.value.balance else 0.0
    }

    /** `saveAccount`. */
    method SaveAccount(account: AccountRecord)
      requires Valid() && WellFormed(account)
      modifies this
      ensures Valid()
      ensures stored == Some(account)
      ensures currentAccount == old(currentAccount) && isAuthenticated == old(isAuthenticated)
    {
      stored := Some(account);
    }

    /** `createAccount`: a fresh account with no money, no holdings and zeroed
        statistics becomes current and saved; `btoa` throws on a password
        with a character above U+00FF. */
    method CreateAccount(id: string, name: string, email: string, password: string, now: int)
      returns (r: Result<AccountRecord, AccountError>)
      requires Valid()
      modifies this
      ensures Valid()
      ensures r.Failure? <==> Btoa(password).None?
      ensures r.Failure? ==> currentAccount == old(currentAccount) && stored == old(stored) &&
                             isAuthenticated == old(isAuthenticated)
      ensures r.Success? ==>
                r.value == AccountRecord(id, name, email, Btoa(password).value, 0.0, now, now, true, EmptyPortfolio, ZeroStatistics) &&
                currentAccount == Some(r.value) && stored == Some(r.value) && isAuthenticated
    {
      var hash := Btoa(password);
      if hash.None? {
        return Failure(InvalidCharacter);
      }
      var account := AccountRecord(id, name, email, hash.value, 0.0, now, now, true, EmptyPortfolio, ZeroStatistics);
      SaveAccount(account);
      currentAccount := Some(account);
      isAuthenticated := true;
      return Success(account);
    }

    /** `login`: checks the e-mail and password against the saved account. */
    method Login(email: string, password: string, now: int) returns (r: Result<AccountRecord, AccountError>)
      requires Valid()
      modifies this
      ensures Valid()
      ensures r.Success? <==> old(stored).Some? && old(stored).value.email == email &&
                              Btoa(password) == Some(old(stored).value.password)
      ensures r == Failure(AccountNotFound) <==> old(stored).None?
      ensures r.Failure? ==> currentAccount == old(currentAccount) && stored == old(stored) &&
                             isAuthenticated == old(isAuthenticated)
      ensures r.Success? ==> r.value == old(stored).value.(lastLogin := now) &&
                             currentAccount == Some(r.value) && stored == Some(r.value) && isAuthenticated
    {
      if stored.None? {
        return Failure(AccountNotFound);
      }
      var account := stored.value;
      if account.email != email {
        return Failure(WrongCredentials);
      }
      var hash := Btoa(password);
      if hash.None? {
        return Failure(InvalidCharacter);
      }
      if account.password != hash.value {
        return Failure(WrongCredentials);
      }
      account := account.(lastLogin := now);
      SaveAccount(account);
      currentAccount := Some(account);
      isAuthenticated := true;
      return Success(account);
    }

    /** `logout`: also removes the saved account. */
    method Logout()
      requires Valid()
      modifies this
      ensures Valid()
      ensures currentAccount.None? && !isAuthenticated && stored.None?
    {
      currentAccount := None;
      isAuthenticated := false;
      stored := None;
    }

    /** `updateBalance`. */
    method UpdateBalance(newBalance: real) returns (ok: bool)
      requires Valid()
      modifies this
      ensures Valid()
      ensures ok <==> old(currentAccount).Some?
      ensures !ok ==> currentAccount == old(currentAccount) && stored == old(stored)
      ensures ok ==> currentAccount == Some(old(currentAccount).value.(balance := newBalance)) && stored == currentAccount
      ensures isAuthenticated == old(isAuthenticated)
    {
      if currentAccount.None? {
        return false;
      }
      var account := currentAccount.value.(balance := newBalance);
      currentAccount := Some(account);
      SaveAccount(account);
      return true;
    }

    /** `addFunds`: false without an account. */
    method AddFunds(amount: real) returns (ok: bool)
      requires Valid()
      modifies this
      ensures Valid()
      ensures ok <==> old(currentAccount).Some?
      ensures !ok ==> currentAccount == old(currentAccount) && stored == old(stored)
      ensures ok ==> currentAccount.Some? && currentAccount.value.balance == old(currentAccount).value.balance + amount &&
                     currentAccount == Some(old(currentAccount).value.(balance := currentAccount.value.balance)) &&
                     stored == currentAccount
      ensures isAuthenticated == old(isAuthenticated)
    {
      if currentAccount.None? {
        return false;
      }
      var account := currentAccount.value;
      account := account.(balance := account.balance + amount);
      currentAccount := Some(account);
      SaveAccount(account);
      return true;
    }

    /** `withdrawFunds`: false, changing nothing, without an account or with
        a balance below the amount. */
    method WithdrawFunds(amount: real) returns (ok: bool)
      requires Valid()
      modifies this
      ensures Valid()
      ensures ok <==> old(currentAccount).Some? && old(currentAccount).value.balance >= amount
      ensures !ok ==> currentAccount == old(currentAccount) && stored == old(stored)
      ensures ok ==> currentAccount.Some? && currentAccount.value.balance == old(currentAccount).value.balance - amount &&
                     currentAccount.value.balance >= 0.0 &&
                     currentAccount == Some(old(currentAccount).value.(balance := currentAccount.value.balance)) &&
                     stored == currentAccount
      ensures isAuthenticated == old(isAuthenticated)
    {
      if currentAccount.None? || currentAccount.value.balance < amount {
        return false;
      }
      var account := currentAccount.value;
      account := account.(balance := account.balance - amount);
      currentAccount := Some(account);
      SaveAccount(account);
      return true;
    }

    /** `updateTradeStats`. */
    method UpdateTradeStats(trade: TradeData) returns (ok: bool)
      requires Valid()
      modifies this
      ensures Valid()
      ensures ok <==> old(currentAccount).Some?
      ensures !ok ==> currentAccount == old(currentAccount) && stored == old(stored)
      ensures ok ==> var a := old(currentAccount).value;
                     currentAccount == Some(a.(statistics := RecordTrade(a.statistics, trade))) && stored == currentAccount
      ensures isAuthenticated == old(isAuthenticated)
    {
      if currentAccount.None? {
        return false;
      }
      var account := currentAccount.value;
      account := account.(statistics := RecordTrade(account.statistics, trade));
      currentAccount := Some(account);
      SaveAccount(account);
      return true;
    }

    /** `changePassword`: the current password must match the stored hash. */
    method ChangePassword(currentPassword: string, newPassword: string) returns (r: Result<(), AccountError>)
      requires Valid()
      modifies this
      ensures Valid()
      ensures old(currentAccount).None? ==> r == Failure(NotAuthorized)
      ensures r.Success? <==> old(currentAccount).Some? && Btoa(currentPassword) == Some(old(currentAccount).value.password) &&
                              Btoa(newPassword).Some?
      ensures r.Failure? ==> currentAccount == old(currentAccount) && stored == old(stored)
      ensures r.Success? ==> currentAccount == Some(old(currentAccount).value.(password := Btoa(newPassword).value)) &&
                             stored == currentAccount
      ensures isAuthenticated == old(isAuthenticated)
    {
      if currentAccount.None? {
        return Failure(NotAuthorized);
      }
      var current := Btoa(currentPassword);
      if current.None? {
        return Failure(InvalidCharacter);
      }
      if currentAccount.value.password != current.value {
        return Failure(WrongPassword);
      }
      var hash := Btoa(newPassword);
      if hash.None? {
        return Failure(InvalidCharacter);
      }
      var account := currentAccount.value.(password := hash.value);
      currentAccount := Some(account);
      SaveAccount(account);
      return Success(());
    }

    /** `deleteAccount`: needs the account's password; then nothing is
        current, saved or authenticated. */
    method DeleteAccount(password: string) returns (r: Result<(), AccountError>)
      requires Valid()
      modifies this
      ensures Valid()
      ensures old(currentAccount).None? ==> r == Failure(NotAuthorized)
      ensures r.Success? <==> old(currentAccount).Some? && Btoa(password) == Some(old(currentAccount).value.password)
      ensures r.Failure? ==> currentAccount == old(currentAccount) && stored == old(stored) &&
                             isAuthenticated == old(isAuthenticated)
      ensures r.Success? ==> currentAccount.None? && stored.None? && !isAuthenticated
    {
      if currentAccount.None? {
        return Failure(NotAuthorized);
      }
      var hash := Btoa(password);
      if hash.None? {
        return Failure(InvalidCharacter);
      }
      if currentAccount.value.password != hash.value {
        return Failure(WrongPassword);
      }
      stored := None;
      currentAccount := None;
      isAuthenticated := false;
      return Success(());
    }
  }

  /** An account created with a password accepts exactly that password. */
  lemma LoginAcceptsOnlyItsPassword(created: string, attempt: string)
    requires Btoa(created).Some?
    ensures Btoa(attempt) == Some(Btoa(created).value) <==> attempt == created
  {
    if Btoa(attempt) == Some(Btoa(created).value) {
      BtoaInjective(created, attempt);
    }
  }
}
