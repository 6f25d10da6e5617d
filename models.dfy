/** The ledger's records (finance/models.py) and the two records the shown
    code imports but does not define, reduced to the fields it uses. */
module Models {
  import opened Wrappers
  import opened Dates
  import Decimals

  type UserId = nat

  datatype AccountType = CASH | CARD

  datatype Currency = UZS | USD

  datatype CardKind = UZCARD | HUMO | VISA | MC

  /** Income or expense: the `IN` / `EX` choice of categories and transactions. */
  datatype Direction = IN | EX

  function CurrencyCode(c: Currency): string {
    match c
    case UZS => "UZS"
    case USD => "USD"
  }

  /** The stored code back to a choice; any other string is no choice. */
  function ParseCurrency(s: string): (r: Option<Currency>)
    ensures r.Some? <==> s == "UZS" || s == "USD"
    ensures r.Some? ==> CurrencyCode(r.value) == s
  {
    if s == "UZS" then Some(UZS) else if s == "USD" then Some(USD) else None
  }

  lemma CurrencyCodeRoundTrip(c: Currency)
    ensures ParseCurrency(CurrencyCode(c)) == Some(c)
  {
  }

  const NameMaxLength := 120
  const BankNameMaxLength := 80
  const Last4MaxLength := 4
  const NoteMaxLength := 200
  /** `DecimalField(max_digits=15, decimal_places=2)`. */
  const AmountMaxDigits := 15
  const AmountDecimalPlaces := 2

  datatype Account = Account(
    id: nat,
    user: UserId,
    name: string,
    accountType: AccountType,
    currency: Option<Currency>,
    cardKind: Option<CardKind>,
    bankName: Option<string>,
    last4: Option<string>)

  datatype Category = Category(id: nat, user: UserId, name: string, direction: Direction)

  datatype Transaction = Transaction(
    id: nat,
    user: UserId,
    direction: Direction,
    category: nat,   // Category.id
    account: nat,    // Account.id
    amount: real,
    date: Date,
    note: string)

  /** `created_at` is set once at creation (`auto_now_add`); a clock reading. */
  datatype Comment = Comment(id: nat, transaction: nat, user: UserId, text: string, createdAt: int)

  /** One stored rate: 1 `base` = `rate` `quote` on `date`. */
  datatype ExchangeRate = ExchangeRate(base: string, quote: string, date: Date, rate: real)

  datatype Transfer = Transfer(
    id: nat,
    user: UserId,
    fromAccount: nat,
    toAccount: nat,
    amountFrom: real,
    amountTo: Option<real>,
    date: Date,
    note: Option<string>,
    outTx: Option<nat>,
    inTx: Option<nat>)

  /** The amount fits `max_digits=15, decimal_places=2`. */
  predicate FitsAmountField(x: real) {
    Decimals.IsCents(x) && -Decimals.CentsValue(Decimals.Pow10(AmountMaxDigits)) < x < Decimals.CentsValue(Decimals.Pow10(AmountMaxDigits))
  }

  predicate AccountFieldsValid(a: Account) {
    && |a.name| <= NameMaxLength
    && (a.bankName.Some? ==> |a.bankName.value| <= BankNameMaxLength)
    && (a.last4.Some? ==> |a.last4.value| <= Last4MaxLength)
  }

  predicate CategoryFieldsValid(c: Category) {
    |c.name| <= NameMaxLength
  }

  predicate TransactionFieldsValid(t: Transaction) {
    FitsAmountField(t.amount) && ValidDate(t.date) && |t.note| <= NoteMaxLength
  }

  /** `ordering = ['-date', '-id']`: `a` is listed before `b`. */
  predicate ListedBefore(a: Transaction, b: Transaction) {
    Lt(b.date, a.date) || (a.date == b.date && a.id > b.id)
  }

  /** The default ordering is a strict total order on transactions with
      distinct ids: exactly one of two such transactions comes first, and
      "comes first" is transitive. */
  lemma ListedBeforeIsStrictTotal(a: Transaction, b: Transaction, c: Transaction)
    ensures !ListedBefore(a, a)
    ensures a.id != b.id ==> (ListedBefore(a, b) <==> !ListedBefore(b, a))
    ensures ListedBefore(a, b) && ListedBefore(b, c) ==> ListedBefore(a, c)
  {
  }

  /** Amounts with at most two decimals and at most 13 integer digits fit the field. */
  lemma FitsAmountFieldCents(n: int)
    requires -1_000_000_000_000_000 < n < 1_000_000_000_000_000
    ensures FitsAmountField(Decimals.CentsValue(n))
  {
    assert Decimals.Pow10(AmountMaxDigits) == 1_000_000_000_000_000;
    assert Decimals.CentsValue(n) * 100.0 == n as real;
  }
}
