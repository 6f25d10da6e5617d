/** Filtering and per-currency totals of finance/views.py (`_sum_amount`,
    `dashboard`, `monthly_report`), over in-memory tables. The `_sum_amount`
    of users/views.py computes the same value and is the same function here. */
module Totals {
  import opened Wrappers
  import opened Dates
  import opened Models
  import opened Seqs
  import opened Decimals
  import opened Exchange

  /** `aggregate(s=Coalesce(Sum("amount"), Decimal("0")))["s"]`: the sum of the
      amounts, 0 for an empty queryset. */
  function SumAmount(txs: seq<Transaction>): (r: real)
    ensures txs == [] ==> r == 0.0
    ensures |txs| == 1 ==> r == txs[0].amount
  {
    if txs == [] then 0.0 else txs[0].amount + SumAmount(txs[1..])
  }

  /** Summing is additive over concatenation. */
  lemma {:induction false} SumAmountAppend(a: seq<Transaction>, b: seq<Transaction>)
    ensures SumAmount(a + b) == SumAmount(a) + SumAmount(b)
  {
    if a == [] {
      assert a + b == b;
    } else {
      assert (a + b)[1..] == a[1..] + b;
      SumAmountAppend(a[1..], b);
    }
  }

  /** Splitting a queryset by a condition and summing both parts gives the
      sum of the whole. */
  lemma {:induction false} SumAmountSplit(s: seq<Transaction>, p: Transaction -> bool, notP: Transaction -> bool)
    requires forall t :: notP(t) == !p(t)
    ensures SumAmount(Filter(s, p)) + SumAmount(Filter(s, notP)) == SumAmount(s)
  {
    if s != [] {
      SumAmountSplit(s[1..], p, notP);
      var head := if p(s[0]) then [s[0]] else [];
      var headNot := if notP(s[0]) then [s[0]] else [];
      SumAmountAppend(head, Filter(s[1..], p));
      SumAmountAppend(headNot, Filter(s[1..], notP));
    }
  }

  /** A sum over nothing that satisfies `p` is 0. */
  lemma SumAmountNone(s: seq<Transaction>, p: Transaction -> bool)
    requires forall i :: 0 <= i < |s| ==> !p(s[i])
    ensures SumAmount(Filter(s, p)) == 0.0
  {
  }

  // ---- joins --------------------------------------------------------------

  /** The account a foreign key refers to (ids are unique in the table). */
  function AccountOf(accounts: seq<Account>, id: nat): (r: Option<Account>)
    ensures r.Some? ==> r.value in accounts && r.value.id == id
    ensures r.None? <==> forall i :: 0 <= i < |accounts| ==> accounts[i].id != id
  {
    if accounts == [] then None
    else if accounts[0].id == id then Some(accounts[0])
    else AccountOf(accounts[1..], id)
  }

  /** `account__currency=c`: the transaction's account holds currency `c`. */
  predicate InCurrency(accounts: seq<Account>, t: Transaction, c: Currency) {
    var a := AccountOf(accounts, t.account);
    a.Some? && a.value.currency == Some(c)
  }

  function CategoryOf(categories: seq<Category>, id: nat): (r: Option<Category>)
    ensures r.Some? ==> r.value in categories && r.value.id == id
    ensures r.None? <==> forall i :: 0 <= i < |categories| ==> categories[i].id != id
  {
    if categories == [] then None
    else if categories[0].id == id then Some(categories[0])
    else CategoryOf(categories[1..], id)
  }

  // ---- icontains ----------------------------------------------------------

  /** Case folding of `__icontains` on ASCII letters. */
  function FoldCase(c: char): (r: char)
    ensures 'A' <= c <= 'Z' ==> r as int == c as int + 32
    ensures !('A' <= c <= 'Z') ==> r == c
  {
    if 'A' <= c <= 'Z' then (c as int + 32) as char else c
  }

  /** `q` occurs in `s` at position `i`, up to case. */
  ghost predicate OccursAt(s: string, q: string, i: int) {
    0 <= i && i + |q| <= |s| && forall k :: 0 <= k < |q| ==> FoldCase(s[i + k]) == FoldCase(q[k])
  }

  function MatchesAt(s: string, q: string, i: nat): (r: bool)
    requires i + |q| <= |s|
    ensures r <==> OccursAt(s, q, i)
  {
    forall k :: 0 <= k < |q| ==> FoldCase(s[i + k]) == FoldCase(q[k])
  }

  function ContainsFrom(s: string, q: string, i: nat): (r: bool)
    ensures r <==> exists j :: i <= j && OccursAt(s, q, j)
    decreases |s| - i
  {
    if i + |q| > |s| then
      assert forall j :: i <= j ==> !OccursAt(s, q, j);
      false
    else MatchesAt(s, q, i) || ContainsFrom(s, q, i + 1)
  }

  /** `field__icontains=q`: `q` occurs in `s`, ignoring ASCII case. */
  function IContains(s: string, q: string): (r: bool)
    ensures r <==> exists j :: OccursAt(s, q, j)
  {
    ContainsFrom(s, q, 0)
  }

  lemma IContainsExamples()
    ensures IContains("Oylik Maosh", "maosh")
    ensures !IContains("Taxi", "bus")
    ensures IContains("anything", "")
  {
    assert OccursAt("Oylik Maosh", "maosh", 6);
    assert OccursAt("anything", "", 0);
    assert "Taxi"[0] == 'T' && "Taxi"[1] == 'a' && "bus"[0] == 'b';
    assert FoldCase('T') == 't' && FoldCase('a') == 'a' && FoldCase('b') == 'b';
    assert !MatchesAt("Taxi", "bus", 0) && !MatchesAt("Taxi", "bus", 1);
  }

  // ---- dashboard ----------------------------------------------------------

  /** The dashboard's query parameters: `q` ("" when absent) and the parsed
      `start` / `end` dates (`None` when absent or empty). */
  datatype Query = Query(q: string, start: Option<Date>, end: Option<Date>)

  /** `Q(note__icontains=q) | Q(category__name__icontains=q)`. */
  predicate MatchesText(categories: seq<Category>, t: Transaction, q: string) {
    IContains(t.note, q) || (var c := CategoryOf(categories, t.category); c.Some? && IContains(c.value.name, q))
  }

  predicate OnOrAfter(t: Transaction, start: Date) { Le(start, t.date) }

  predicate OnOrBefore(t: Transaction, end: Date) { Le(t.date, end) }

  /** `Transaction.objects.filter(user=user)`. */
  function UserRows(txs: seq<Transaction>, user: UserId): (r: seq<Transaction>)
    ensures forall i :: 0 <= i < |r| ==> r[i] in txs && r[i].user == user
    ensures forall i :: 0 <= i < |txs| && txs[i].user == user ==> txs[i] in r
  {
    Filter(txs, (t: Transaction) => t.user == user)
  }

  /** `start` / `end` bounds, applied only when given. */
  function DateRange(rows: seq<Transaction>, start: Option<Date>, end: Option<Date>): (r: seq<Transaction>)
    ensures forall t :: t in r <==> (t in rows && (start.None? || OnOrAfter(t, start.value))
                                               && (end.None? || OnOrBefore(t, end.value)))
  {
    var s1 := if start.Some? then Filter(rows, (t: Transaction) => OnOrAfter(t, start.value)) else rows;
    var s2 := if end.Some? then Filter(s1, (t: Transaction) => OnOrBefore(t, end.value)) else s1;
    s2
  }

  /** The dashboard's rows, filtered in the order the view applies the filters:
      user, text, start, end. */
  function DashboardRows(txs: seq<Transaction>, categories: seq<Category>, user: UserId, query: Query)
    : (r: seq<Transaction>)
    ensures forall i :: 0 <= i < |r| ==> r[i] in txs && r[i].user == user
  {
    var s0 := UserRows(txs, user);
    var s1 := if query.q != "" then Filter(s0, (t: Transaction) => MatchesText(categories, t, query.q)) else s0;
    DateRange(s1, query.start, query.end)
  }

  /** A transaction is on the dashboard exactly when it is the user's, the
      text (if any) occurs in its note or category name, and its date is
      within the given bounds. */
  lemma DashboardRowsKeep(txs: seq<Transaction>, categories: seq<Category>, user: UserId, query: Query, t: Transaction)
    ensures t in DashboardRows(txs, categories, user, query) <==>
      && t in txs && t.user == user
      && (query.q == "" || MatchesText(categories, t, query.q))
      && (query.start.None? || Le(query.start.value, t.date))
      && (query.end.None? || Le(t.date, query.end.value))
  {
    var s0 := UserRows(txs, user);
    assert t in s0 <==> t in txs && t.user == user;
    var s1 := if query.q != "" then Filter(s0, (t: Transaction) => MatchesText(categories, t, query.q)) else s0;
    assert t in s1 <==> t in s0 && (query.q == "" || MatchesText(categories, t, query.q));
  }

  /** Income, expense and balance of one currency. */
  datatype CurrencyTotals = CurrencyTotals(income: real, expense: real, balance: real)

  function DirectionSum(rows: seq<Transaction>, accounts: seq<Account>, d: Direction, c: Currency): real {
    SumAmount(Filter(rows, (t: Transaction) => t.direction == d && InCurrency(accounts, t, c)))
  }

  /** `income_c`, `expense_c`, `balance_c = income_c - expense_c`. */
  function TotalsOf(rows: seq<Transaction>, accounts: seq<Account>, c: Currency): (r: CurrencyTotals)
    ensures r.balance == r.income - r.expense
    ensures rows == [] ==> r == CurrencyTotals(0.0, 0.0, 0.0)
  {
    var income := DirectionSum(rows, accounts, IN, c);
    var expense := DirectionSum(rows, accounts, EX, c);
    CurrencyTotals(income, expense, income - expense)
  }

  /** What one transaction contributes: its amount to the income or the
      expense of its account's currency, and nothing anywhere else. */
  function Contribution(accounts: seq<Account>, t: Transaction, c: Currency): CurrencyTotals {
    var amount := if InCurrency(accounts, t, c) then t.amount else 0.0;
    match t.direction
    case IN => CurrencyTotals(amount, 0.0, amount)
    case EX => CurrencyTotals(0.0, amount, -amount)
  }

  function Plus(a: CurrencyTotals, b: CurrencyTotals): CurrencyTotals {
    CurrencyTotals(a.income + b.income, a.expense + b.expense, a.balance + b.balance)
  }

  /** Totals computed one transaction at a time: the independent reference
      for `TotalsOf`. */
  function Accumulated(rows: seq<Transaction>, accounts: seq<Account>, c: Currency): CurrencyTotals {
    if rows == [] then CurrencyTotals(0.0, 0.0, 0.0)
    else Plus(Contribution(accounts, rows[0], c), Accumulated(rows[1..], accounts, c))
  }

  /** Peeling the first transaction off a direction sum. */
  lemma DirectionSumCons(rows: seq<Transaction>, accounts: seq<Account>, d: Direction, c: Currency)
    requires rows != []
    ensures DirectionSum(rows, accounts, d, c)
      == (if rows[0].direction == d && InCurrency(accounts, rows[0], c) then rows[0].amount else 0.0)
         + DirectionSum(rows[1..], accounts, d, c)
  {
    var p := (t: Transaction) => t.direction == d && InCurrency(accounts, t, c);
    var h := if p(rows[0]) then [rows[0]] else [];
    assert Filter(rows, p) == h + Filter(rows[1..], p);
    SumAmountAppend(h, Filter(rows[1..], p));
  }

  lemma {:induction false} AccumulatedIncome(rows: seq<Transaction>, accounts: seq<Account>, c: Currency)
    ensures Accumulated(rows, accounts, c).income == DirectionSum(rows, accounts, IN, c)
  {
    if rows != [] {
      AccumulatedIncome(rows[1..], accounts, c);
      DirectionSumCons(rows, accounts, IN, c);
    }
  }

  lemma {:induction false} AccumulatedExpense(rows: seq<Transaction>, accounts: seq<Account>, c: Currency)
    ensures Accumulated(rows, accounts, c).expense == DirectionSum(rows, accounts, EX, c)
  {
    if rows != [] {
      AccumulatedExpense(rows[1..], accounts, c);
      DirectionSumCons(rows, accounts, EX, c);
    }
  }

  lemma {:induction false} AccumulatedBalance(rows: seq<Transaction>, accounts: seq<Account>, c: Currency)
    ensures var a := Accumulated(rows, accounts, c); a.balance == a.income - a.expense
  {
    if rows != [] {
      AccumulatedBalance(rows[1..], accounts, c);
    }
  }

  /** The query-shaped totals are the transaction-by-transaction totals. */
  lemma TotalsAreAccumulated(rows: seq<Transaction>, accounts: seq<Account>, c: Currency)
    ensures TotalsOf(rows, accounts, c) == Accumulated(rows, accounts, c)
  {
    AccumulatedIncome(rows, accounts, c);
    AccumulatedExpense(rows, accounts, c);
    AccumulatedBalance(rows, accounts, c);
  }

  /** A direction sum over two parts is the sum of their direction sums. */
  lemma DirectionSumAppend(a: seq<Transaction>, b: seq<Transaction>, accounts: seq<Account>, d: Direction, c: Currency)
    ensures DirectionSum(a + b, accounts, d, c) == DirectionSum(a, accounts, d, c) + DirectionSum(b, accounts, d, c)
  {
    var p := (t: Transaction) => t.direction == d && InCurrency(accounts, t, c);
    FilterAppend(a, b, p);
    SumAmountAppend(Filter(a, p), Filter(b, p));
  }

  /** Totals of two parts add up. */
  lemma TotalsAppend(a: seq<Transaction>, b: seq<Transaction>, accounts: seq<Account>, c: Currency)
    ensures TotalsOf(a + b, accounts, c) == Plus(TotalsOf(a, accounts, c), TotalsOf(b, accounts, c))
  {
    DirectionSumAppend(a, b, accounts, IN, c);
    DirectionSumAppend(a, b, accounts, EX, c);
    var ta, tb, tab := TotalsOf(a, accounts, c), TotalsOf(b, accounts, c), TotalsOf(a + b, accounts, c);
    assert tab.income == ta.income + tb.income;
    assert tab.expense == ta.expense + tb.expense;
    assert tab.balance == ta.balance + tb.balance;
  }

  /** The dashboard's figures. */
  datatype DashboardView = DashboardView(
    rows: seq<Transaction>,
    uzs: CurrencyTotals,
    usd: CurrencyTotals,
    totalUzs: real)

  /** `try: convert(balance_usd, "USD", "UZS") except Exception: 0`. */
  function UsdInUzsOrZero(rates: seq<ExchangeRate>, balanceUsd: real, today: Date): (r: real)
    ensures Convert(rates, balanceUsd, "USD", "UZS", None, today).Err? ==> r == 0.0
    ensures Convert(rates, balanceUsd, "USD", "UZS", None, today).Ok? ==>
      r == Convert(rates, balanceUsd, "USD", "UZS", None, today).value
  {
    match Convert(rates, balanceUsd, "USD", "UZS", None, today)
    case Ok(v) => v
    case Err(_) => 0.0
  }

  function Dashboard(txs: seq<Transaction>, accounts: seq<Account>, categories: seq<Category>,
                     rates: seq<ExchangeRate>, user: UserId, query: Query, today: Date): (r: DashboardView)
    ensures r.rows == DashboardRows(txs, categories, user, query)
    ensures r.uzs == TotalsOf(r.rows, accounts, UZS) && r.usd == TotalsOf(r.rows, accounts, USD)
    ensures r.totalUzs == r.uzs.balance + UsdInUzsOrZero(rates, r.usd.balance, today)
  {
    var rows := DashboardRows(txs, categories, user, query);
    var uzs := TotalsOf(rows, accounts, UZS);
    var usd := TotalsOf(rows, accounts, USD);
    DashboardView(rows, uzs, usd, uzs.balance + UsdInUzsOrZero(rates, usd.balance, today))
  }

  /** Without a USD->UZS rate dated today or earlier the combined total is
      the UZS balance. */
  lemma DashboardTotalWithoutRate(txs: seq<Transaction>, accounts: seq<Account>, categories: seq<Category>,
                                  rates: seq<ExchangeRate>, user: UserId, query: Query, today: Date)
    requires forall i :: 0 <= i < |rates| ==> !Applies(rates[i], "USD", "UZS", today)
    ensures var v := Dashboard(txs, accounts, categories, rates, user, query, today);
      v.totalUzs == v.uzs.balance
  {
    var v := Dashboard(txs, accounts, categories, rates, user, query, today);
    assert "USD" != "UZS" by { assert "USD"[1] != "UZS"[1]; }
    assert GetRate(rates, "USD", "UZS", None, today).Err?;
  }

  /** With a rate available the combined total adds the USD balance
      converted at the earliest stored rate dated today or earlier, rounded to cents. */
  lemma DashboardTotalWithRate(txs: seq<Transaction>, accounts: seq<Account>, categories: seq<Category>,
                               rates: seq<ExchangeRate>, user: UserId, query: Query, today: Date)
    requires exists i :: 0 <= i < |rates| && Applies(rates[i], "USD", "UZS", today)
    ensures var v := Dashboard(txs, accounts, categories, rates, user, query, today);
      exists i :: 0 <= i < |rates| && Applies(rates[i], "USD", "UZS", today)
        && (forall j :: 0 <= j < i ==> !Applies(rates[j], "USD", "UZS", today))
        && v.totalUzs == v.uzs.balance + Quantize(Times(v.usd.balance, rates[i].rate))
  {
    var v := Dashboard(txs, accounts, categories, rates, user, query, today);
    var i := UsdInUzsAtEarliest(rates, v.usd.balance, today);
  }

  /** The converted figure uses the earliest record applicable today; the index
      is returned so the caller names the same record. */
  lemma UsdInUzsAtEarliest(rates: seq<ExchangeRate>, balanceUsd: real, today: Date) returns (i: nat)
    requires exists i :: 0 <= i < |rates| && Applies(rates[i], "USD", "UZS", today)
    ensures i < |rates| && Applies(rates[i], "USD", "UZS", today)
    ensures forall j :: 0 <= j < i ==> !Applies(rates[j], "USD", "UZS", today)
    ensures UsdInUzsOrZero(rates, balanceUsd, today) == Quantize(Times(balanceUsd, rates[i].rate))
  {
    assert "USD" != "UZS" by { assert "USD"[1] != "UZS"[1]; }
    i := FirstApplicable(rates, "USD", "UZS", today).value;
    assert GetRate(rates, "USD", "UZS", None, today) == Ok(rates[i].rate);
  }

  // ---- monthly report -----------------------------------------------------

  /** The monthly report's figures. */
  datatype Report = Report(rows: seq<Transaction>, uzs: CurrencyTotals, usd: CurrencyTotals)

  /** `monthly_report`: the user's rows within the optional dates and their
      per-currency totals. */
  function MonthlyReport(txs: seq<Transaction>, accounts: seq<Account>, user: UserId,
                         start: Option<Date>, end: Option<Date>): (r: Report)
    ensures forall t :: t in r.rows <==> (t in txs && t.user == user
      && (start.None? || Le(start.value, t.date)) && (end.None? || Le(t.date, end.value)))
    ensures r.uzs == TotalsOf(r.rows, accounts, UZS) && r.usd == TotalsOf(r.rows, accounts, USD)
  {
    var rows := DateRange(UserRows(txs, user), start, end);
    Report(rows, TotalsOf(rows, accounts, UZS), TotalsOf(rows, accounts, USD))
  }

  /** Without a text query the report and the dashboard show the same rows
      and the same totals for the same dates. */
  lemma ReportMatchesDashboard(txs: seq<Transaction>, accounts: seq<Account>, categories: seq<Category>,
                               rates: seq<ExchangeRate>, user: UserId, start: Option<Date>, end: Option<Date>,
                               today: Date)
    ensures var d := Dashboard(txs, accounts, categories, rates, user, Query("", start, end), today);
      var m := MonthlyReport(txs, accounts, user, start, end);
      d.rows == m.rows && d.uzs == m.uzs && d.usd == m.usd
  {
  }

  /** The example of one account: 500 in and 200 out leave a balance of 300. */
  lemma BalanceExample(acc: Account, user: UserId, d: Date)
    requires acc.currency == Some(UZS)
    ensures var txs := [Transaction(1, user, IN, 1, acc.id, 500.0, d, ""),
                        Transaction(2, user, EX, 2, acc.id, 200.0, d, "")];
      TotalsOf(txs, [acc], UZS) == CurrencyTotals(500.0, 200.0, 300.0)
  {
    var txs := [Transaction(1, user, IN, 1, acc.id, 500.0, d, ""),
                Transaction(2, user, EX, 2, acc.id, 200.0, d, "")];
    TotalsAreAccumulated(txs, [acc], UZS);
    assert txs[1..][1..] == [];
  }
}
