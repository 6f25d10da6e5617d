/** The profile page of users/views.py: the user's accounts, newest first,
    each annotated with its balance, and the per-currency totals combined at
    the most recent stored USD->UZS rate. */
module Profile {
  import opened Wrappers
  import opened Dates
  import opened Models
  import opened Seqs
  import opened Decimals
  import opened Exchange
  import opened Totals

  // ---- accounts -----------------------------------------------------------

  /** `Account.objects.filter(user=user).order_by("-id")`. */
  function ProfileAccounts(accounts: seq<Account>, user: UserId): (r: seq<Account>)
    ensures |r| <= |accounts|
    ensures forall i, j :: 0 <= i < j < |r| ==> r[i].id >= r[j].id
  {
    var key := (a: Account) => 0 - a.id as int;
    var r := SortBy(Filter(accounts, (a: Account) => a.user == user), key);
    assert forall i, j :: 0 <= i < j < |r| ==> key(r[i]) <= key(r[j]);
    r
  }

  /** The listing holds exactly the user's accounts. */
  lemma ProfileAccountsMembers(accounts: seq<Account>, user: UserId, a: Account)
    ensures a in ProfileAccounts(accounts, user) <==> a in accounts && a.user == user
  {
    var mine := Filter(accounts, (a: Account) => a.user == user);
    var r := ProfileAccounts(accounts, user);
    assert r == SortBy(mine, (a: Account) => 0 - a.id as int);
    assert a in multiset(r) <==> a in multiset(mine);
  }

  /** With unique ids the listing is strictly newest first. */
  lemma ProfileAccountsStrictlyDescending(accounts: seq<Account>, user: UserId)
    requires forall i, j :: 0 <= i < j < |accounts| ==> accounts[i].id != accounts[j].id
    ensures var r := ProfileAccounts(accounts, user);
      forall i, j :: 0 <= i < j < |r| ==> r[i].id > r[j].id
  {
    var mine := Filter(accounts, (a: Account) => a.user == user);
    var r := ProfileAccounts(accounts, user);
    assert r == SortBy(mine, (a: Account) => 0 - a.id as int);
    FilterDistinct(accounts, (a: Account) => a.user == user);
    DistinctPermutation(mine, r);
    forall i, j | 0 <= i < j < |r| ensures r[i].id != r[j].id {
      ProfileAccountsMembers(accounts, user, r[i]);
      ProfileAccountsMembers(accounts, user, r[j]);
      SameIdSameAccount(accounts, r[i], r[j]);
    }
  }

  /** With unique ids two stored accounts with the same id are the same. */
  lemma SameIdSameAccount(accounts: seq<Account>, a: Account, b: Account)
    requires forall i, j :: 0 <= i < j < |accounts| ==> accounts[i].id != accounts[j].id
    requires a in accounts && b in accounts
    ensures a.id == b.id ==> a == b
  {
    var k :| 0 <= k < |accounts| && accounts[k] == a;
    var l :| 0 <= l < |accounts| && accounts[l] == b;
    assert k != l ==> a.id != b.id;
  }

  // ---- per-account balance ------------------------------------------------

  /** `_sum_amount(tx.filter(type="IN", account=acc)) - _sum_amount(tx.filter(type="EX", account=acc))`. */
  function AccountBalance(tx: seq<Transaction>, account: nat): (r: real)
    ensures (forall i :: 0 <= i < |tx| ==> tx[i].account != account) ==> r == 0.0
  {
    SumAmount(Filter(tx, (t: Transaction) => t.direction == IN && t.account == account))
    - SumAmount(Filter(tx, (t: Transaction) => t.direction == EX && t.account == account))
  }

  /** What one transaction adds to an account's balance: its amount when it
      is income of that account, minus it when it is an expense of that
      account, nothing otherwise. */
  function Effect(t: Transaction, account: nat): real {
    if t.account != account then 0.0
    else match t.direction
      case IN => t.amount
      case EX => -t.amount
  }

  /** The balance computed one transaction at a time: the independent
      reference for `AccountBalance`. */
  function RunningBalance(tx: seq<Transaction>, account: nat): real {
    if tx == [] then 0.0 else Effect(tx[0], account) + RunningBalance(tx[1..], account)
  }

  /** The query-shaped balance is the running balance. */
  lemma {:induction false} AccountBalanceIsRunning(tx: seq<Transaction>, account: nat)
    ensures AccountBalance(tx, account) == RunningBalance(tx, account)
  {
    if tx != [] {
      AccountBalanceIsRunning(tx[1..], account);
      var pIn := (t: Transaction) => t.direction == IN && t.account == account;
      var pEx := (t: Transaction) => t.direction == EX && t.account == account;
      var hIn := if pIn(tx[0]) then [tx[0]] else [];
      var hEx := if pEx(tx[0]) then [tx[0]] else [];
      assert Filter(tx, pIn) == hIn + Filter(tx[1..], pIn);
      assert Filter(tx, pEx) == hEx + Filter(tx[1..], pEx);
      SumAmountAppend(hIn, Filter(tx[1..], pIn));
      SumAmountAppend(hEx, Filter(tx[1..], pEx));
    }
  }

  /** Recording one more transaction changes only its own account's balance,
      by its amount, up for income and down for an expense. */
  lemma AccountBalanceAppend(tx: seq<Transaction>, t: Transaction, account: nat)
    ensures AccountBalance(tx + [t], account) == AccountBalance(tx, account) + Effect(t, account)
  {
    var pIn := (u: Transaction) => u.direction == IN && u.account == account;
    var pEx := (u: Transaction) => u.direction == EX && u.account == account;
    FilterAppend(tx, [t], pIn);
    FilterAppend(tx, [t], pEx);
    var tIn, tEx := Filter([t], pIn), Filter([t], pEx);
    assert [t][1..] == [];
    assert tIn == (if pIn(t) then [t] else []);
    assert tEx == (if pEx(t) then [t] else []);
    SumAmountAppend(Filter(tx, pIn), tIn);
    SumAmountAppend(Filter(tx, pEx), tEx);
    assert SumAmount(tIn) - SumAmount(tEx) == Effect(t, account);
  }

  /** An account of the listing together with the balance the view attaches
      to it (`acc.calculated_balance`). */
  class AccountEntry {
    const account: Account
    var calculatedBalance: real

    constructor (a: Account)
      ensures account == a && calculatedBalance == 0.0
    {
      account := a;
      calculatedBalance := 0.0;
    }
  }

  /** `list(Account.objects.filter(user=user).order_by("-id"))`: one fresh
      object per listed account. */
  method ListAccounts(accounts: seq<Account>, user: UserId) returns (entries: seq<AccountEntry>)
    ensures |entries| == |ProfileAccounts(accounts, user)|
    ensures forall i :: 0 <= i < |entries| ==> entries[i].account == ProfileAccounts(accounts, user)[i]
    ensures forall i :: 0 <= i < |entries| ==> fresh(entries[i])
  {
    var listed := ProfileAccounts(accounts, user);
    entries := [];
    var i := 0;
    while i < |listed|
      invariant 0 <= i <= |listed| && |entries| == i
      invariant forall k :: 0 <= k < i ==> entries[k].account == listed[k] && fresh(entries[k])
    {
      var e := new AccountEntry(listed[i]);
      entries := entries + [e];
      i := i + 1;
    }
  }

  /** The loop over the listed accounts: each object gets the balance of its
      account over the user's transactions `tx`. The same object listed twice
      gets the same value both times. */
  method AnnotateBalances(entries: seq<AccountEntry>, tx: seq<Transaction>)
    modifies set e | e in entries
    ensures forall i :: 0 <= i < |entries| ==>
      entries[i].calculatedBalance == AccountBalance(tx, entries[i].account.id)
  {
    var i := 0;
    while i < |entries|
      invariant 0 <= i <= |entries|
      invariant forall k :: 0 <= k < i ==>
        entries[k].calculatedBalance == AccountBalance(tx, entries[k].account.id)
    {
      var acc := entries[i];
      acc.calculatedBalance := AccountBalance(tx, acc.account.id);
      i := i + 1;
    }
  }

  /** The first half of `profile`: the user's accounts, newest first, each with its
      balance over the user's own transactions `Transaction.objects.filter(user=user)`. */
  method ProfileAccountBalances(accounts: seq<Account>, txs: seq<Transaction>, user: UserId)
    returns (entries: seq<AccountEntry>)
    ensures |entries| == |ProfileAccounts(accounts, user)|
    ensures forall i :: 0 <= i < |entries| ==>
      && entries[i].account == ProfileAccounts(accounts, user)[i]
      && entries[i].calculatedBalance == AccountBalance(UserRows(txs, user), entries[i].account.id)
    ensures forall i :: 0 <= i < |entries| ==> fresh(entries[i])
  {
    entries := ListAccounts(accounts, user);
    AnnotateBalances(entries, UserRows(txs, user));
  }

  // ---- the USD rate -------------------------------------------------------

  predicate IsUsdUzs(r: ExchangeRate) {
    r.base == "USD" && r.quote == "UZS"
  }

  /** `ExchangeRate.objects.filter(base="USD", quote="UZS").order_by("-date").first()`:
      a USD->UZS record no other USD->UZS record postdates, whatever today is. */
  function LatestUsdUzs(rates: seq<ExchangeRate>): (r: Option<ExchangeRate>)
    ensures r.Some? ==> r.value in rates && IsUsdUzs(r.value)
    ensures r.Some? ==> forall i :: 0 <= i < |rates| && IsUsdUzs(rates[i]) ==> Le(rates[i].date, r.value.date)
    ensures r.None? <==> forall i :: 0 <= i < |rates| ==> !IsUsdUzs(rates[i])
  {
    if rates == [] then None
    else
      var rest := LatestUsdUzs(rates[1..]);
      assert forall i :: 1 <= i < |rates| ==> rates[i] == rates[1..][i - 1];
      if !IsUsdUzs(rates[0]) then rest
      else if rest.None? || Le(rest.value.date, rates[0].date) then Some(rates[0])
      else rest
  }

  /** `_get_usd_rate()`: the latest record's rate, 0 when there is none. */
  function UsdRate(rates: seq<ExchangeRate>): (r: real)
    ensures (forall i :: 0 <= i < |rates| ==> !IsUsdUzs(rates[i])) ==> r == 0.0
    ensures (exists i :: 0 <= i < |rates| && IsUsdUzs(rates[i])) ==>
      exists i :: 0 <= i < |rates| && IsUsdUzs(rates[i]) && r == rates[i].rate
        && forall j :: 0 <= j < |rates| && IsUsdUzs(rates[j]) ==> Le(rates[j].date, rates[i].date)
  {
    var latest := LatestUsdUzs(rates);
    if latest.Some? then
      var i :| 0 <= i < |rates| && rates[i] == latest.value;
      latest.value.rate
    else 0.0
  }

  // ---- totals -------------------------------------------------------------

  /** The profile's figures. */
  datatype ProfileView = ProfileView(
    uzs: CurrencyTotals,
    usd: CurrencyTotals,
    usdRate: real,
    totalUzs: real)

  /** The profile totals: the per-currency totals over all of the user's
      transactions, and `balance_uzs + balance_usd * usd_rate`, not rounded. */
  function ProfileTotals(txs: seq<Transaction>, accounts: seq<Account>, rates: seq<ExchangeRate>,
                         user: UserId): (r: ProfileView)
    ensures r.uzs.balance == r.uzs.income - r.uzs.expense
    ensures r.usd.balance == r.usd.income - r.usd.expense
    ensures r.totalUzs == r.uzs.balance + Times(r.usd.balance, r.usdRate)
    ensures r.uzs == TotalsOf(UserRows(txs, user), accounts, UZS)
    ensures r.usd == TotalsOf(UserRows(txs, user), accounts, USD)
    ensures r.usdRate == UsdRate(rates)
  {
    var tx := UserRows(txs, user);
    var uzs := TotalsOf(tx, accounts, UZS);
    var usd := TotalsOf(tx, accounts, USD);
    var rate := UsdRate(rates);
    ProfileView(uzs, usd, rate, uzs.balance + Times(usd.balance, rate))
  }

  /** The profile's per-currency figures are the dashboard's with no search
      text and no dates. */
  lemma ProfileMatchesDashboard(txs: seq<Transaction>, accounts: seq<Account>, categories: seq<Category>,
                                rates: seq<ExchangeRate>, user: UserId, today: Date)
    ensures var p := ProfileTotals(txs, accounts, rates, user);
      var d := Dashboard(txs, accounts, categories, rates, user, Query("", None, None), today);
      p.uzs == d.uzs && p.usd == d.usd
  {
    assert DashboardRows(txs, categories, user, Query("", None, None)) == UserRows(txs, user);
  }

  /** Without any USD->UZS record the total is the UZS balance. */
  lemma ProfileTotalWithoutRate(txs: seq<Transaction>, accounts: seq<Account>, rates: seq<ExchangeRate>,
                                user: UserId)
    requires forall i :: 0 <= i < |rates| ==> !IsUsdUzs(rates[i])
    ensures var p := ProfileTotals(txs, accounts, rates, user);
      p.usdRate == 0.0 && p.totalUzs == p.uzs.balance
  {
    var p := ProfileTotals(txs, accounts, rates, user);
    assert Times(p.usd.balance, 0.0) == 0.0;
  }

  /** The two pages differ: a rate dated after today is ignored by the
      dashboard, whose total is then the UZS balance, but is used, unrounded,
      by the profile. */
  lemma FutureRateOnlyOnProfile(txs: seq<Transaction>, accounts: seq<Account>, categories: seq<Category>,
                                user: UserId, today: Date, later: Date, rate: real)
    requires Lt(today, later)
    ensures var rates := [ExchangeRate("USD", "UZS", later, rate)];
      var p := ProfileTotals(txs, accounts, rates, user);
      var d := Dashboard(txs, accounts, categories, rates, user, Query("", None, None), today);
      p.usdRate == rate && p.totalUzs == p.uzs.balance + Times(p.usd.balance, rate)
        && d.totalUzs == d.uzs.balance
  {
    var rates := [ExchangeRate("USD", "UZS", later, rate)];
    assert IsUsdUzs(rates[0]);
    assert !Le(later, today);
    DashboardTotalWithoutRate(txs, accounts, categories, rates, user, Query("", None, None), today);
  }
}
