/** The daily rate updater (finance/services/cbu.py) without its HTTP call: the
    decoded JSON list is the input. It picks the USD entry, reads its rate and
    date, and upserts the USD->UZS record of the rate table. */
module Cbu {
  import opened Wrappers
  import opened Dates
  import opened Decimals
  import opened Models

  /** One element of the decoded JSON list; an absent key is `None`. */
  datatype CbuEntry = CbuEntry(ccy: Option<string>, rate: Option<string>, date: Option<string>)

  datatype CbuError =
    | UsdMissing                 // RuntimeError("CBU javobida USD topilmadi")
    | FieldMissing(key: string)  // KeyError on usd["Rate"] / usd["Date"]
    | BadRate                    // decimal.InvalidOperation
    | BadDate                    // ValueError from strptime

  /** `next((x for x in data if x.get("Ccy") == "USD"), None)`, as an index. */
  function FirstUsd(data: seq<CbuEntry>): (r: Option<nat>)
    ensures r.Some? ==> (r.value < |data| && data[r.value].ccy == Some("USD")
      && forall j :: 0 <= j < r.value ==> data[j].ccy != Some("USD"))
    ensures r.None? <==> forall j :: 0 <= j < |data| ==> data[j].ccy != Some("USD")
  {
    if data == [] then None
    else if data[0].ccy == Some("USD") then Some(0)
    else
      match FirstUsd(data[1..])
      case None => None
      case Some(i) => Some(i + 1)
  }

  /** `str(...).replace(",", ".")`. */
  function NormalizeRate(s: string): (r: string)
    ensures |r| == |s| && ',' !in r
    ensures forall i :: 0 <= i < |s| && s[i] != ',' ==> r[i] == s[i]
    ensures forall i :: 0 <= i < |s| && s[i] == ',' ==> r[i] == '.'
  {
    seq(|s|, i requires 0 <= i < |s| => if s[i] == ',' then '.' else s[i])
  }

  /** `Decimal(str(rate).replace(",", "."))`. */
  function ParseRate(s: string): (r: Option<real>)
    ensures ',' !in s ==> r == ParseDecimal(s)
  {
    assert ',' !in s ==> NormalizeRate(s) == s;
    ParseDecimal(NormalizeRate(s))
  }

  /** Comma and dot decimal separators give the same rate, and the value is
      the one the numeral denotes. */
  lemma ParseRateEitherSeparator(n: int)
    ensures ParseRate(FormatCents(n, ',')) == Some(CentsValue(n))
    ensures ParseRate(FormatCents(n, '.')) == Some(CentsValue(n))
  {
    NormalizeCents(n, ',');
    NormalizeCents(n, '.');
    ParseFormatCents(n);
  }

  /** Normalising a cents numeral written with either separator gives the
      dot form. */
  lemma NormalizeCents(n: int, point: char)
    requires point == ',' || point == '.'
    ensures NormalizeRate(FormatCents(n, point)) == FormatCents(n, '.')
  {
    var m: nat := if n < 0 then -n else n;
    var w, f := DigitsOf(m / 100), TwoDigits(m % 100);
    assert NoComma(w) by { NoCommaInDigits(w); }
    assert NoComma(f) by { NoCommaInDigits(f); }
    var sign := if n < 0 then "-" else "";
    var s, t := FormatCents(n, point), FormatCents(n, '.');
    assert s == sign + w + [point] + f;
    assert t == sign + w + ['.'] + f;
    var r := NormalizeRate(s);
    forall i | 0 <= i < |s| ensures r[i] == t[i] {
      if i < |sign| + |w| {
        assert s[i] == t[i] && s[i] != ',';
      } else if i > |sign| + |w| {
        assert s[i] == f[i - |sign| - |w| - 1] == t[i];
      }
    }
  }

  predicate NoComma(s: string) {
    forall i :: 0 <= i < |s| ==> s[i] != ','
  }

  lemma NoCommaInDigits(s: string)
    requires AllDigits(s)
    ensures NoComma(s)
  {
    forall i | 0 <= i < |s| ensures s[i] != ',' {
      assert IsDigit(s[i]);
    }
  }

  lemma DigitsOfExample()
    ensures DigitsOf(11969) == "11969"
  {
    assert DigitsOf(1) == "1";
    assert DigitsOf(11) == "11";
    assert DigitsOf(119) == "119";
    assert DigitsOf(1196) == "1196";
  }

  lemma FormatCentsExample(point: char)
    ensures FormatCents(1196966, point) == "11969" + [point] + "66"
  {
    DigitsOfExample();
    assert TwoDigits(66) == "66";
  }

  /** The exact example the updater's source comment gives. */
  lemma ParseRateExample()
    ensures ParseRate("11969,66") == Some(11969.66)
    ensures ParseRate("11969.66") == Some(11969.66)
  {
    ParseRateExampleWith(',');
    ParseRateExampleWith('.');
    assert "11969" + [','] + "66" == "11969,66";
    assert "11969" + ['.'] + "66" == "11969.66";
  }

  lemma ParseRateExampleWith(point: char)
    requires point == ',' || point == '.'
    ensures ParseRate("11969" + [point] + "66") == Some(11969.66)
  {
    ParseRateEitherSeparator(1196966);
    FormatCentsExample(point);
    assert CentsValue(1196966) == 11969.66;
  }

  // ---- datetime.strptime(s, "%d.%m.%Y").date() ---------------------------

  /** `%d`: `3[01]|[12]\d|0[1-9]|[1-9]| [1-9]`. */
  function ParseDayField(p: string): (r: Option<int>)
    ensures r.Some? ==> 1 <= r.value <= 31
  {
    if |p| == 1 && IsDigit(p[0]) && p[0] != '0' then Some(DigitValue(p[0]))
    else if |p| == 2 && AllDigits(p) && 1 <= DigitsValue(p) <= 31 then Some(DigitsValue(p))
    else if |p| == 2 && p[0] == ' ' && IsDigit(p[1]) && p[1] != '0' then Some(DigitValue(p[1]))
    else None
  }

  /** `%m`: `1[0-2]|0[1-9]|[1-9]`. */
  function ParseMonthField(p: string): (r: Option<int>)
    ensures r.Some? ==> 1 <= r.value <= 12
  {
    if |p| == 1 && IsDigit(p[0]) && p[0] != '0' then Some(DigitValue(p[0]))
    else if |p| == 2 && AllDigits(p) && 1 <= DigitsValue(p) <= 12 then Some(DigitsValue(p))
    else None
  }

  /** `datetime.strptime(s, "%d.%m.%Y").date()`: day, month and a four-digit
      year separated by points, nothing after the year, and a day that exists
      in that month; `None` stands for the `ValueError`. */
  function ParseDate(s: string): (r: Option<Date>)
    ensures r.Some? ==> ValidDate(r.value)
  {
    match IndexOf(s, '.')
    case None => None
    case Some(i) =>
      var rest := s[i + 1..];
      match IndexOf(rest, '.')
      case None => None
      case Some(j) =>
        var dayField, monthField, yearField := s[..i], rest[..j], rest[j + 1..];
        match (ParseDayField(dayField), ParseMonthField(monthField))
        case (Some(day), Some(month)) =>
          if |yearField| == 4 && AllDigits(yearField) && ValidDate(Date(DigitsValue(yearField), month, day))
          then Some(Date(DigitsValue(yearField), month, day))
          else None
        case _ => None
  }

  lemma {:induction false} IndexOfAfter(a: string, b: string, c: char)
    requires c !in a
    ensures IndexOf(a + [c] + b, c) == Some(|a|)
  {
    if a != [] {
      assert (a + [c] + b)[1..] == a[1..] + [c] + b;
      IndexOfAfter(a[1..], b, c);
    }
  }

  /** The date as the CBU feed writes it: `dd.mm.yyyy`. */
  function FormatDate(d: Date): string
    requires ValidDate(d)
  {
    TwoDigits(d.day) + "." + TwoDigits(d.month) + "." + FourDigits(d.year)
  }

  /** Every valid date written as `dd.mm.yyyy` is read back as itself. */
  lemma ParseFormatDate(d: Date)
    requires ValidDate(d)
    ensures ParseDate(FormatDate(d)) == Some(d)
  {
    var dd, mm, yy := TwoDigits(d.day), TwoDigits(d.month), FourDigits(d.year);
    var s := FormatDate(d);
    NoPointInDigits(dd);
    NoPointInDigits(mm);
    IndexOfAfter(dd, mm + "." + yy, '.');
    assert s == dd + "." + (mm + "." + yy);
    assert s[..2] == dd;
    var rest := s[3..];
    assert rest == mm + "." + yy;
    IndexOfAfter(mm, yy, '.');
    assert rest[..2] == mm;
    assert rest[3..] == yy;
    assert ParseDayField(dd) == Some(d.day);
    assert ParseMonthField(mm) == Some(d.month);
  }

  /** The feed's own example: "16.01.2026" is 16 January 2026. */
  lemma ParseDateExample()
    ensures ParseDate("16.01.2026") == Some(Date(2026, 1, 16))
  {
    var d := Date(2026, 1, 16);
    assert FormatDate(d) == "16.01.2026" by {
      assert TwoDigits(16) == "16";
      assert TwoDigits(1) == "01";
      assert TwoDigits(20) == "20" && TwoDigits(26) == "26";
      assert FourDigits(2026) == "2026";
    }
    ParseFormatDate(d);
  }

  // ---- the USD entry ------------------------------------------------------

  datatype UsdQuote = UsdQuote(rate: real, date: Date)

  /** The reading part of `update_usd_uzs`: choose the first USD entry, then
      parse its rate, then its date, failing at the first step that fails. It
      succeeds exactly when all three steps do, and each failure names the
      step. */
  function ReadUsdQuote(data: seq<CbuEntry>): (r: Result<UsdQuote, CbuError>)
    ensures r.Err? && r.error == UsdMissing <==> FirstUsd(data).None?
    ensures r.Ok? ==> (FirstUsd(data).Some?
      && var e := data[FirstUsd(data).value];
      && e.rate.Some? && ParseRate(e.rate.value) == Some(r.value.rate)
      && e.date.Some? && ParseDate(e.date.value) == Some(r.value.date))
    ensures FirstUsd(data).Some? ==>
      var e := data[FirstUsd(data).value];
      && (e.rate.None? <==> r == Err(FieldMissing("Rate")))
      && (e.rate.Some? && ParseRate(e.rate.value).None? <==> r == Err(BadRate))
      && (e.rate.Some? && ParseRate(e.rate.value).Some? && e.date.None? <==> r == Err(FieldMissing("Date")))
      && ((e.rate.Some? && ParseRate(e.rate.value).Some? && e.date.Some? && ParseDate(e.date.value).None?)
            <==> r == Err(BadDate))
      && ((e.rate.Some? && ParseRate(e.rate.value).Some? && e.date.Some? && ParseDate(e.date.value).Some?)
            <==> r.Ok?)
  {
    match FirstUsd(data)
    case None => Err(UsdMissing)
    case Some(i) =>
      var e := data[i];
      if e.rate.None? then Err(FieldMissing("Rate"))
      else
        match ParseRate(e.rate.value)
        case None => Err(BadRate)
        case Some(rate) =>
          if e.date.None? then Err(FieldMissing("Date"))
          else
            match ParseDate(e.date.value)
            case None => Err(BadDate)
            case Some(d) => Ok(UsdQuote(rate, d))
  }

  // ---- update_or_create on the rate table ---------------------------------

  predicate HasKey(r: ExchangeRate, base: string, quote: string, date: Date) {
    r.base == base && r.quote == quote && r.date == date
  }

  /** The table's (base, quote, date) key is unique. */
  ghost predicate UniqueKeys(rates: seq<ExchangeRate>) {
    forall i, j :: 0 <= i < j < |rates| ==> !HasKey(rates[j], rates[i].base, rates[i].quote, rates[i].date)
  }

  /** The position of the record with this key, if any. */
  function KeyIndex(rates: seq<ExchangeRate>, base: string, quote: string, date: Date): (r: Option<nat>)
    ensures r.Some? ==> (r.value < |rates| && HasKey(rates[r.value], base, quote, date)
      && forall j :: 0 <= j < r.value ==> !HasKey(rates[j], base, quote, date))
    ensures r.None? <==> forall j :: 0 <= j < |rates| ==> !HasKey(rates[j], base, quote, date)
  {
    if rates == [] then None
    else if HasKey(rates[0], base, quote, date) then Some(0)
    else
      match KeyIndex(rates[1..], base, quote, date)
      case None => None
      case Some(i) => Some(i + 1)
  }

  /** The table after `update_or_create(base=, quote=, date=, defaults={"rate": rate})`:
      the keyed record gets the new rate where it is, or a new record is added.
      Records with any other key keep their place and value; the only record
      that may be added carries the key. */
  function Upserted(rates: seq<ExchangeRate>, base: string, quote: string, date: Date, rate: real)
    : (r: seq<ExchangeRate>)
    ensures |rates| <= |r| <= |rates| + 1
    ensures forall i :: 0 <= i < |rates| && !HasKey(rates[i], base, quote, date) ==> r[i] == rates[i]
    ensures forall i :: |rates| <= i < |r| ==> r[i] == ExchangeRate(base, quote, date, rate)
  {
    match KeyIndex(rates, base, quote, date)
    case Some(i) => rates[i := ExchangeRate(base, quote, date, rate)]
    case None => rates + [ExchangeRate(base, quote, date, rate)]
  }

  /** On a table with unique keys, the upsert leaves exactly one record with
      the key, carrying the new rate, and keeps the keys unique. */
  lemma UpsertedHoldsOne(rates: seq<ExchangeRate>, base: string, quote: string, date: Date, rate: real)
    requires UniqueKeys(rates)
    ensures var r := Upserted(rates, base, quote, date, rate);
      && UniqueKeys(r)
      && exists i :: (0 <= i < |r| && r[i] == ExchangeRate(base, quote, date, rate)
        && forall j :: 0 <= j < |r| && HasKey(r[j], base, quote, date) ==> j == i)
  {
    var r := Upserted(rates, base, quote, date, rate);
    match KeyIndex(rates, base, quote, date)
    case Some(i) =>
      assert forall j :: 0 <= j < |r| && j != i ==> r[j] == rates[j];
      assert r[i] == ExchangeRate(base, quote, date, rate);
    case None =>
      assert r[|rates|] == ExchangeRate(base, quote, date, rate);
  }

  /** Upserting the same rate twice leaves the table as one upsert does: no
      duplicate is created. */
  lemma UpsertedIdempotent(rates: seq<ExchangeRate>, base: string, quote: string, date: Date, rate: real)
    ensures Upserted(Upserted(rates, base, quote, date, rate), base, quote, date, rate)
         == Upserted(rates, base, quote, date, rate)
  {
    var r := Upserted(rates, base, quote, date, rate);
    var rec := ExchangeRate(base, quote, date, rate);
    match KeyIndex(rates, base, quote, date)
    case Some(i) =>
      assert forall j :: 0 <= j < i ==> r[j] == rates[j];
      assert HasKey(r[i], base, quote, date);
    case None =>
      assert forall j :: 0 <= j < |rates| ==> r[j] == rates[j];
      assert HasKey(r[|rates|], base, quote, date);
      assert r[|rates| := rec] == r;
  }

  /** Result of `update_or_create`: the stored record and whether it is new. */
  datatype Upsert = Upsert(obj: ExchangeRate, created: bool)

  /** The rate table, updated in place. */
  class RateStore {
    var rates: seq<ExchangeRate>

    ghost predicate Valid()
      reads this
    {
      UniqueKeys(rates)
    }

    constructor (initial: seq<ExchangeRate>)
      requires UniqueKeys(initial)
      ensures Valid() && rates == initial
    {
      rates := initial;
    }

    /** `ExchangeRate.objects.update_or_create(...)`: look the key up, then
        update that record or create one. */
    method UpdateOrCreate(base: string, quote: string, date: Date, rate: real) returns (u: Upsert)
      requires Valid()
      modifies this
      ensures Valid()
      ensures rates == Upserted(old(rates), base, quote, date, rate)
      ensures u.obj == ExchangeRate(base, quote, date, rate)
      ensures u.created <==> KeyIndex(old(rates), base, quote, date).None?
    {
      UpsertedHoldsOne(rates, base, quote, date, rate);
      var i := 0;
      while i < |rates| && !HasKey(rates[i], base, quote, date)
        invariant 0 <= i <= |rates|
        invariant forall j :: 0 <= j < i ==> !HasKey(rates[j], base, quote, date)
      {
        i := i + 1;
      }
      var obj := ExchangeRate(base, quote, date, rate);
      if i < |rates| {
        assert KeyIndex(rates, base, quote, date) == Some(i);
        rates := rates[i := obj];
        u := Upsert(obj, false);
      } else {
        rates := rates + [obj];
        u := Upsert(obj, true);
      }
    }

    /** `update_usd_uzs()` after the fetch: on any failure the table is left
        as it was; on success it holds the parsed USD->UZS rate for the parsed
        date. */
    method UpdateUsdUzs(data: seq<CbuEntry>) returns (r: Result<Upsert, CbuError>)
      requires Valid()
      modifies this
      ensures Valid()
      ensures r.Err? <==> ReadUsdQuote(data).Err?
      ensures r.Err? ==> r.error == ReadUsdQuote(data).error && rates == old(rates)
      ensures r.Ok? ==>
        var q := ReadUsdQuote(data).value;
        && rates == Upserted(old(rates), "USD", "UZS", q.date, q.rate)
        && r.value.obj == ExchangeRate("USD", "UZS", q.date, q.rate)
        && (r.value.created <==> KeyIndex(old(rates), "USD", "UZS", q.date).None?)
    {
      match ReadUsdQuote(data)
      case Err(e) =>
        r := Err(e);
      case Ok(q) =>
        var u := UpdateOrCreate("USD", "UZS", q.date, q.rate);
        r := Ok(u);
    }
  }

  /** Running the updater twice on the same feed leaves the table as running it
      once does, and the second run reports no creation. */
  method UpdateTwice(store: RateStore, data: seq<CbuEntry>)
    returns (first: Result<Upsert, CbuError>, second: Result<Upsert, CbuError>)
    requires store.Valid()
    modifies store
    ensures store.Valid()
    ensures first.Ok? <==> ReadUsdQuote(data).Ok?
    ensures second.Ok? <==> first.Ok?
    ensures first.Err? ==> store.rates == old(store.rates)
    ensures first.Ok? ==>
      var q := ReadUsdQuote(data).value;
      && store.rates == Upserted(old(store.rates), "USD", "UZS", q.date, q.rate)
      && !second.value.created
      && second.value.obj == first.value.obj
  {
    first := store.UpdateUsdUzs(data);
    var once := store.rates;
    second := store.UpdateUsdUzs(data);
    if first.Ok? {
      var q := ReadUsdQuote(data).value;
      UpsertedIdempotent(old(store.rates), "USD", "UZS", q.date, q.rate);
      UpsertedHoldsOne(old(store.rates), "USD", "UZS", q.date, q.rate);
    }
  }
}
