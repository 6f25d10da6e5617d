/** The month bucketing of `analytics` (finance/views.py): the user's
    transactions of one year in accounts of one currency, summed per month and
    direction, gathered into a month -> (income, expense) bucket, and read out
    as month labels in ascending order with aligned income and expense lists. */
module Analytics {
  import opened Wrappers
  import opened Dates
  import opened Models
  import opened Seqs
  import opened Totals

  /** `filter(user=user, date__year=year, account__currency=currency)`; the
      currency is the request's text, so any code can be asked for. */
  predicate InBase(accounts: seq<Account>, user: UserId, year: int, currency: string, t: Transaction) {
    && t.user == user && t.date.year == year
    && var a := AccountOf(accounts, t.account);
       a.Some? && a.value.currency.Some? && CurrencyCode(a.value.currency.value) == currency
  }

  function BaseRows(txs: seq<Transaction>, accounts: seq<Account>, user: UserId, year: int, currency: string)
    : (r: seq<Transaction>)
    ensures forall i :: 0 <= i < |r| ==> r[i] in txs && InBase(accounts, user, year, currency, r[i])
    ensures forall i :: 0 <= i < |txs| && InBase(accounts, user, year, currency, txs[i]) ==> txs[i] in r
  {
    Filter(txs, (t: Transaction) => InBase(accounts, user, year, currency, t))
  }

  /** The `values("m", "type")` grouping key of a transaction. */
  datatype GroupKey = GroupKey(month: Month, direction: Direction)

  function KeyOf(t: Transaction): GroupKey {
    GroupKey(MonthOf(t.date), t.direction)
  }

  /** `Sum("amount")` over the transactions of one month and direction. */
  function MonthTotal(rows: seq<Transaction>, m: Month, d: Direction): real {
    SumAmount(Filter(rows, (t: Transaction) => KeyOf(t) == GroupKey(m, d)))
  }

  /** A month without transactions of a direction totals 0 for it. */
  lemma MissingDirectionIsZero(rows: seq<Transaction>, m: Month, d: Direction)
    requires forall i :: 0 <= i < |rows| ==> KeyOf(rows[i]) != GroupKey(m, d)
    ensures MonthTotal(rows, m, d) == 0.0
  {
    SumAmountNone(rows, (t: Transaction) => KeyOf(t) == GroupKey(m, d));
  }

  /** The distinct grouping keys of `rows`. */
  function GroupKeys(rows: seq<Transaction>): (r: seq<GroupKey>)
    ensures forall k :: k in r <==> exists i :: 0 <= i < |rows| && KeyOf(rows[i]) == k
    ensures Distinct(r)
  {
    if rows == [] then []
    else
      var rest := GroupKeys(rows[1..]);
      assert forall i :: 0 <= i < |rows[1..]| ==> rows[1..][i] == rows[i + 1];
      if KeyOf(rows[0]) in rest then rest else [KeyOf(rows[0])] + rest
  }

  /** One row of the grouped query. */
  datatype GroupRow = GroupRow(month: Month, direction: Direction, total: real)

  function RowOf(rows: seq<Transaction>, k: GroupKey): GroupRow {
    GroupRow(k.month, k.direction, MonthTotal(rows, k.month, k.direction))
  }

  /** Each row's total is the total of its month and direction. */
  ghost predicate RowsAgree(groups: seq<GroupRow>, rows: seq<Transaction>) {
    forall i :: 0 <= i < |groups| ==> groups[i].total == MonthTotal(rows, groups[i].month, groups[i].direction)
  }

  /** `.annotate(m=TruncMonth("date")).values("m", "type")
      .annotate(total=Sum("amount")).order_by("m")`: one row per month and
      direction that occurs, ascending by month. */
  function Grouped(rows: seq<Transaction>): (r: seq<GroupRow>)
    ensures SortedBy(r, (g: GroupRow) => MonthKey(g.month))
  {
    SortBy(Unsorted(rows), (g: GroupRow) => MonthKey(g.month))
  }

  function Unsorted(rows: seq<Transaction>): (r: seq<GroupRow>)
    ensures |r| == |GroupKeys(rows)|
    ensures forall i :: 0 <= i < |r| ==> r[i] == RowOf(rows, GroupKeys(rows)[i])
  {
    var keys := GroupKeys(rows);
    seq(|keys|, i requires 0 <= i < |keys| => RowOf(rows, keys[i]))
  }

  /** Each grouped row carries the total of its month and direction. */
  lemma GroupedAgree(rows: seq<Transaction>)
    ensures RowsAgree(Grouped(rows), rows)
  {
    var r, u := Grouped(rows), Unsorted(rows);
    forall i | 0 <= i < |r|
      ensures r[i].total == MonthTotal(rows, r[i].month, r[i].direction)
    {
      assert r[i] in multiset(u);
    }
  }

  /** Every grouped row stands for a month and direction that occurs. */
  lemma GroupedSound(rows: seq<Transaction>, i: nat)
    requires i < |Grouped(rows)|
    ensures exists j :: 0 <= j < |rows| && KeyOf(rows[j]) == GroupKey(Grouped(rows)[i].month, Grouped(rows)[i].direction)
  {
    var r, u, keys := Grouped(rows), Unsorted(rows), GroupKeys(rows);
    assert r[i] in multiset(u);
    var j :| 0 <= j < |u| && u[j] == r[i];
    assert keys[j] in keys;
  }

  /** GROUP BY gives one row per month and direction: no two grouped rows
      share both. */
  lemma GroupedOnePerKey(rows: seq<Transaction>)
    ensures forall i, j :: 0 <= i < j < |Grouped(rows)| ==>
      !(Grouped(rows)[i].month == Grouped(rows)[j].month && Grouped(rows)[i].direction == Grouped(rows)[j].direction)
  {
    var r, u, keys := Grouped(rows), Unsorted(rows), GroupKeys(rows);
    forall i, j | 0 <= i < j < |u|
      ensures u[i] != u[j]
    {
      assert keys[i] != keys[j];
    }
    DistinctPermutation(u, r);
    GroupedAgree(rows);
  }

  /** Every month and direction that occurs has a grouped row. */
  lemma GroupedComplete(rows: seq<Transaction>, j: nat)
    requires j < |rows|
    ensures exists i :: 0 <= i < |Grouped(rows)| && Grouped(rows)[i].month == MonthOf(rows[j].date)
                        && Grouped(rows)[i].direction == rows[j].direction
  {
    var r, u, keys := Grouped(rows), Unsorted(rows), GroupKeys(rows);
    var k := KeyOf(rows[j]);
    assert k in keys;
    var n :| 0 <= n < |keys| && keys[n] == k;
    assert u[n] in multiset(r);
    var i :| 0 <= i < |r| && r[i] == u[n];
    assert r[i].month == k.month && r[i].direction == k.direction;
  }

  /** There is a grouped row for (m, d) exactly when a transaction of month
      `m` and direction `d` exists. */
  lemma GroupedCovers(rows: seq<Transaction>, m: Month, d: Direction)
    ensures (exists i :: 0 <= i < |Grouped(rows)| && Grouped(rows)[i].month == m && Grouped(rows)[i].direction == d)
        <==> (exists i :: 0 <= i < |rows| && KeyOf(rows[i]) == GroupKey(m, d))
  {
    var r := Grouped(rows);
    if exists i :: 0 <= i < |r| && r[i].month == m && r[i].direction == d {
      var i :| 0 <= i < |r| && r[i].month == m && r[i].direction == d;
      GroupedSound(rows, i);
    }
    if exists j :: 0 <= j < |rows| && KeyOf(rows[j]) == GroupKey(m, d) {
      var j :| 0 <= j < |rows| && KeyOf(rows[j]) == GroupKey(m, d);
      GroupedComplete(rows, j);
    }
  }

  // ---- the bucket ---------------------------------------------------------

  /** `{"IN": income, "EX": expense}` of one month. */
  datatype Cell = Cell(income: real, expense: real)

  /** One loop step: `bucket.setdefault(m, {"IN": 0, "EX": 0})`, then
      `bucket[m][type] = total`. */
  function Put(bucket: map<Month, Cell>, g: GroupRow): (r: map<Month, Cell>)
    ensures r.Keys == bucket.Keys + {g.month}
  {
    var cell := if g.month in bucket then bucket[g.month] else Cell(0.0, 0.0);
    bucket[g.month := match g.direction
                      case IN => cell.(income := g.total)
                      case EX => cell.(expense := g.total)]
  }

  /** The bucket after the loop has seen `groups`: the last row seen is
      recorded for its month and direction, since a later row overwrites. */
  function BucketOf(groups: seq<GroupRow>): (r: map<Month, Cell>)
    ensures groups != [] ==>
      var g := groups[|groups| - 1];
      g.month in r && (match g.direction case IN => r[g.month].income case EX => r[g.month].expense) == g.total
  {
    if groups == [] then map[]
    else Put(BucketOf(groups[..|groups| - 1]), groups[|groups| - 1])
  }

  /** The loop of `analytics` that fills the bucket in place, one group row at a time. */
  method FillBucket(groups: seq<GroupRow>) returns (bucket: map<Month, Cell>)
    ensures bucket == BucketOf(groups)
  {
    bucket := map[];
    var i := 0;
    while i < |groups|
      invariant 0 <= i <= |groups|
      invariant bucket == BucketOf(groups[..i])
    {
      var g := groups[i];
      if g.month !in bucket {
        bucket := bucket[g.month := Cell(0.0, 0.0)];
      }
      var cell := bucket[g.month];
      match g.direction {
        case IN => bucket := bucket[g.month := cell.(income := g.total)];
        case EX => bucket := bucket[g.month := cell.(expense := g.total)];
      }
      assert groups[..i + 1][..i] == groups[..i];
      i := i + 1;
    }
    assert groups[..|groups|] == groups;
  }

  /** The total of the last row for (m, d), or 0 when there is none: what the
      bucket holds for that direction, since a later row overwrites. */
  function LastTotal(groups: seq<GroupRow>, m: Month, d: Direction): real {
    if groups == [] then 0.0
    else if groups[|groups| - 1].month == m && groups[|groups| - 1].direction == d then groups[|groups| - 1].total
    else LastTotal(groups[..|groups| - 1], m, d)
  }

  /** The bucket has a month exactly when some row has it, and holds the last
      total of each direction, 0 for a direction no row of that month has. */
  lemma {:induction false} BucketSpec(groups: seq<GroupRow>, m: Month)
    ensures m in BucketOf(groups) <==> exists i :: 0 <= i < |groups| && groups[i].month == m
    ensures m in BucketOf(groups) ==>
      BucketOf(groups)[m] == Cell(LastTotal(groups, m, IN), LastTotal(groups, m, EX))
  {
    if groups != [] {
      var init, g := groups[..|groups| - 1], groups[|groups| - 1];
      BucketSpec(init, m);
      assert forall i :: 0 <= i < |init| ==> init[i] == groups[i];
      if m != g.month {
        assert (exists i :: 0 <= i < |groups| && groups[i].month == m)
          ==> (exists i :: 0 <= i < |init| && init[i].month == m);
        assert LastTotal(groups, m, IN) == LastTotal(init, m, IN);
        assert LastTotal(groups, m, EX) == LastTotal(init, m, EX);
      } else {
        assert groups[|groups| - 1].month == m;
        if m !in BucketOf(init) {
          LastTotalAbsent(init, m, IN);
          LastTotalAbsent(init, m, EX);
        }
        match g.direction {
          case IN => assert LastTotal(groups, m, EX) == LastTotal(init, m, EX);
          case EX => assert LastTotal(groups, m, IN) == LastTotal(init, m, IN);
        }
      }
    }
  }

  lemma {:induction false} LastTotalAbsent(groups: seq<GroupRow>, m: Month, d: Direction)
    requires forall i :: 0 <= i < |groups| ==> groups[i].month != m
    ensures LastTotal(groups, m, d) == 0.0
  {
    if groups != [] {
      LastTotalAbsent(groups[..|groups| - 1], m, d);
    }
  }

  /** Dropping a last row of another month or direction keeps both whether
      (m, d) occurs and its last total. */
  lemma DropOtherLast(groups: seq<GroupRow>, m: Month, d: Direction)
    requires groups != []
    requires var g := groups[|groups| - 1]; !(g.month == m && g.direction == d)
    ensures var init := groups[..|groups| - 1];
      && LastTotal(groups, m, d) == LastTotal(init, m, d)
      && ((exists i :: 0 <= i < |groups| && groups[i].month == m && groups[i].direction == d)
          <==> (exists i :: 0 <= i < |init| && init[i].month == m && init[i].direction == d))
  {
    var init := groups[..|groups| - 1];
    assert forall i :: 0 <= i < |init| ==> init[i] == groups[i];
  }

  /** When all rows for a key agree with `rows`, the last of them carries the
      key's total; without a row the result is 0. */
  lemma {:induction false} LastTotalAgrees(groups: seq<GroupRow>, rows: seq<Transaction>, m: Month, d: Direction)
    requires RowsAgree(groups, rows)
    ensures LastTotal(groups, m, d) ==
      if exists i :: 0 <= i < |groups| && groups[i].month == m && groups[i].direction == d
      then MonthTotal(rows, m, d) else 0.0
  {
    if groups != [] {
      var init := groups[..|groups| - 1];
      assert RowsAgree(init, rows) by {
        assert forall i :: 0 <= i < |init| ==> init[i] == groups[i];
      }
      LastTotalAgrees(init, rows, m, d);
      var g := groups[|groups| - 1];
      if !(g.month == m && g.direction == d) {
        DropOtherLast(groups, m, d);
      }
    }
  }

  /** On the grouped rows the last total of a month and direction is that
      month's total for the direction. */
  lemma GroupedLastTotal(rows: seq<Transaction>, m: Month, d: Direction)
    ensures LastTotal(Grouped(rows), m, d) == MonthTotal(rows, m, d)
  {
    var groups := Grouped(rows);
    GroupedAgree(rows);
    LastTotalAgrees(groups, rows, m, d);
    GroupedCovers(rows, m, d);
    if !exists i :: 0 <= i < |groups| && groups[i].month == m && groups[i].direction == d {
      MissingDirectionIsZero(rows, m, d);
    }
  }

  /** On the grouped rows the bucket holds a month exactly when a transaction
      falls in it, with that month's income and expense totals. */
  lemma BucketOfGrouped(rows: seq<Transaction>, m: Month)
    ensures m in BucketOf(Grouped(rows)) <==> exists i :: 0 <= i < |rows| && MonthOf(rows[i].date) == m
    ensures m in BucketOf(Grouped(rows)) ==>
      BucketOf(Grouped(rows))[m] == Cell(MonthTotal(rows, m, IN), MonthTotal(rows, m, EX))
  {
    var groups := Grouped(rows);
    BucketSpec(groups, m);
    if exists i :: 0 <= i < |rows| && MonthOf(rows[i].date) == m {
      var i :| 0 <= i < |rows| && MonthOf(rows[i].date) == m;
      GroupedComplete(rows, i);
    }
    if exists i :: 0 <= i < |groups| && groups[i].month == m {
      var i :| 0 <= i < |groups| && groups[i].month == m;
      GroupedSound(rows, i);
    }
    GroupedLastTotal(rows, m, IN);
    GroupedLastTotal(rows, m, EX);
  }

  // ---- labels -------------------------------------------------------------

  /** `sorted(bucket.keys())`: the months of the bucket, each once, ascending. */
  method SortedLabels(bucket: map<Month, Cell>) returns (labels: seq<Month>)
    ensures forall m :: m in labels <==> m in bucket
    ensures Distinct(labels)
    ensures SortedBy(labels, MonthKey)
  {
    var keys: seq<Month> := [];
    var rest := bucket.Keys;
    while rest != {}
      invariant rest <= bucket.Keys
      invariant forall m :: m in keys <==> m in bucket && m !in rest
      invariant Distinct(keys)
      decreases |rest|
    {
      var m :| m in rest;
      keys := keys + [m];
      rest := rest - {m};
    }
    labels := SortBy(keys, MonthKey);
    DistinctPermutation(keys, labels);
    forall m
      ensures m in labels <==> m in keys
    {
      assert m in labels <==> m in multiset(labels);
    }
  }

  /** Distinct labels of real months are in strictly ascending order. */
  lemma LabelsStrictlyAscending(labels: seq<Month>)
    requires Distinct(labels) && SortedBy(labels, MonthKey)
    requires forall i :: 0 <= i < |labels| ==> 1 <= labels[i].month <= 12
    ensures forall i, j :: 0 <= i < j < |labels| ==> MonthKey(labels[i]) < MonthKey(labels[j])
  {
    forall i, j | 0 <= i < j < |labels|
      ensures MonthKey(labels[i]) < MonthKey(labels[j])
    {
      var a, b := labels[i], labels[j];
      if a.year < b.year {
        assert MonthKey(a) < MonthKey(b);
      }
    }
  }

  /** `[bucket[m]["IN"] for m in labels]` and the same for "EX". */
  function Series(bucket: map<Month, Cell>, labels: seq<Month>): (r: (seq<real>, seq<real>))
    requires forall i :: 0 <= i < |labels| ==> labels[i] in bucket
    ensures |r.0| == |labels| && |r.1| == |labels|
    ensures forall i :: 0 <= i < |labels| ==> r.0[i] == bucket[labels[i]].income && r.1[i] == bucket[labels[i]].expense
  {
    (seq(|labels|, i requires 0 <= i < |labels| => bucket[labels[i]].income),
     seq(|labels|, i requires 0 <= i < |labels| => bucket[labels[i]].expense))
  }

  /** The chart data of `analytics` for `user`, `year` and `currency`: one
      label per month with a transaction, each once and ascending, and for
      each its income and expense totals (0 for a direction without one). */
  method Analytics(txs: seq<Transaction>, accounts: seq<Account>, user: UserId, year: int, currency: string)
    returns (labels: seq<Month>, income: seq<real>, expense: seq<real>)
    ensures var base := BaseRows(txs, accounts, user, year, currency);
      && |income| == |labels| && |expense| == |labels|
      && Distinct(labels) && SortedBy(labels, MonthKey)
      && (forall m :: m in labels <==> exists i :: 0 <= i < |base| && MonthOf(base[i].date) == m)
      && (forall i :: 0 <= i < |labels| ==>
            income[i] == MonthTotal(base, labels[i], IN) && expense[i] == MonthTotal(base, labels[i], EX))
  {
    var base := BaseRows(txs, accounts, user, year, currency);
    var bucket := FillBucket(Grouped(base));
    labels := SortedLabels(bucket);
    var series := Series(bucket, labels);
    income, expense := series.0, series.1;
    forall m
      ensures m in labels <==> exists i :: 0 <= i < |base| && MonthOf(base[i].date) == m
    {
      BucketOfGrouped(base, m);
    }
    forall i | 0 <= i < |labels|
      ensures income[i] == MonthTotal(base, labels[i], IN) && expense[i] == MonthTotal(base, labels[i], EX)
    {
      BucketOfGrouped(base, labels[i]);
    }
  }
}
