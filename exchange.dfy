/** The conversion service (finance/services/exchange.py): rate lookup over the
    rate table and conversion with rounding to cents. "Today" is a parameter. */
module Exchange {
  import opened Wrappers
  import opened Dates
  import opened Models
  import opened Decimals

  /** `ValueError("Kurs topilmadi: base->quote")`. */
  datatype RateError = RateNotFound(base: string, quote: string)

  /** `filter(base=base, quote=quote, date__lte=on)`. */
  predicate Applies(r: ExchangeRate, base: string, quote: string, on: Date) {
    r.base == base && r.quote == quote && Le(r.date, on)
  }

  /** The lookup date: the given one, or the local "today" when none is given. */
  function LookupDate(onDate: Option<Date>, today: Date): (d: Date)
    ensures onDate.Some? ==> d == onDate.value
    ensures onDate.None? ==> d == today
  {
    match onDate
    case Some(d) => d
    case None => today
  }

  /** `.first()` of the filtered table. The query has no `order_by`, so
      Django orders it by primary key; the table is kept in primary-key order,
      so this is the earliest matching record. */
  function FirstApplicable(rates: seq<ExchangeRate>, base: string, quote: string, on: Date): (r: Option<nat>)
    ensures r.Some? ==> r.value < |rates| && Applies(rates[r.value], base, quote, on)
    ensures r.Some? ==> forall j :: 0 <= j < r.value ==> !Applies(rates[j], base, quote, on)
    ensures r.None? <==> forall i :: 0 <= i < |rates| ==> !Applies(rates[i], base, quote, on)
  {
    if rates == [] then None
    else if Applies(rates[0], base, quote, on) then Some(0)
    else
      match FirstApplicable(rates[1..], base, quote, on)
      case None => None
      case Some(i) => Some(i + 1)
  }

  /** Some stored record applies to the pair on that date. */
  ghost predicate HasApplicable(rates: seq<ExchangeRate>, base: string, quote: string, on: Date) {
    exists i :: 0 <= i < |rates| && Applies(rates[i], base, quote, on)
  }

  /** `get_rate(base, quote, on_date)`. Equal currencies give 1 whatever the
      table holds; otherwise the rate of the earliest stored record for the
      pair dated on or before the lookup date, and an error exactly when there
      is none. */
  function GetRate(rates: seq<ExchangeRate>, base: string, quote: string, onDate: Option<Date>, today: Date)
    : (r: Result<real, RateError>)
    ensures base == quote ==> r == Ok(1.0)
    ensures base != quote ==> (r.Err? <==> !HasApplicable(rates, base, quote, LookupDate(onDate, today)))
    ensures base != quote && r.Ok? ==>
      exists i :: 0 <= i < |rates| && Applies(rates[i], base, quote, LookupDate(onDate, today)) && rates[i].rate == r.value
        && forall j :: 0 <= j < i ==> !Applies(rates[j], base, quote, LookupDate(onDate, today))
    ensures r.Err? ==> r.error == RateNotFound(base, quote)
  {
    if base == quote then Ok(1.0)
    else
      match FirstApplicable(rates, base, quote, LookupDate(onDate, today))
      case None => Err(RateNotFound(base, quote))
      case Some(i) => Ok(rates[i].rate)
  }

  /** `convert(amount, base, quote, on_date)`: `_q(amount * get_rate(...))`; it
      fails exactly when the rate lookup fails. */
  function Convert(rates: seq<ExchangeRate>, amount: real, base: string, quote: string, onDate: Option<Date>, today: Date)
    : (r: Result<real, RateError>)
    ensures r.Err? <==> GetRate(rates, base, quote, onDate, today).Err?
    ensures r.Ok? ==> IsCents(r.value)
    ensures r.Ok? ==> -0.005 <= r.value - Times(amount, GetRate(rates, base, quote, onDate, today).value) <= 0.005
    ensures r.Ok? ==> r.value == Quantize(Times(amount, GetRate(rates, base, quote, onDate, today).value))
  {
    match GetRate(rates, base, quote, onDate, today)
    case Err(e) => Err(e)
    case Ok(rate) => Ok(Quantize(Times(amount, rate)))
  }

  /** Converting into the same currency only rounds, and reads no rate. */
  lemma ConvertSameCurrency(rates: seq<ExchangeRate>, amount: real, c: string, onDate: Option<Date>, today: Date)
    ensures Convert(rates, amount, c, c, onDate, today) == Ok(Quantize(amount))
    ensures Convert(rates, amount, c, c, onDate, today) == Convert([], amount, c, c, onDate, today)
  {
  }

  /** A successful conversion is the rounded product with the rate of the
      earliest applicable record, the one `get_rate` returns. */
  lemma ConvertUsesStoredRate(rates: seq<ExchangeRate>, amount: real, base: string, quote: string, onDate: Option<Date>, today: Date)
    requires base != quote
    requires Convert(rates, amount, base, quote, onDate, today).Ok?
    ensures exists i :: (0 <= i < |rates| && Applies(rates[i], base, quote, LookupDate(onDate, today))
      && (forall j :: 0 <= j < i ==> !Applies(rates[j], base, quote, LookupDate(onDate, today)))
      && Convert(rates, amount, base, quote, onDate, today).value == Quantize(Times(amount, rates[i].rate)))
  {
    var i := FirstApplicable(rates, base, quote, LookupDate(onDate, today)).value;
    var rate := rates[i].rate;
    assert GetRate(rates, base, quote, onDate, today) == Ok(rate);
    assert Convert(rates, amount, base, quote, onDate, today) == Ok(Quantize(Times(amount, rate)));
  }

  /** With one applicable record the result no longer depends on which match
      `.first()` returns. */
  lemma GetRateSingleRecord(r: ExchangeRate, others: seq<ExchangeRate>, on: Date, today: Date)
    requires r.base != r.quote && Le(r.date, on)
    requires forall i :: 0 <= i < |others| ==> !Applies(others[i], r.base, r.quote, on)
    ensures GetRate(others + [r], r.base, r.quote, Some(on), today) == Ok(r.rate)
    ensures GetRate([r] + others, r.base, r.quote, Some(on), today) == Ok(r.rate)
  {
    var s1, s2 := others + [r], [r] + others;
    assert s1[|others|] == r;
    assert s2[0] == r;
    assert forall i :: 0 <= i < |s1| && i != |others| ==> s1[i] == others[i];
    assert forall i :: 0 < i < |s2| ==> s2[i] == others[i - 1];
  }
}
