/** The two validators of finance/forms.py. A form's cleaned data is a record
    of optional values (an absent key reads as `None`, as `cleaned.get` gives).
    `add_error(field, msg)` appends the message and, as Django's `add_error`
    does, drops that field from the cleaned data. */
module Forms {
  import opened Wrappers
  import opened Dates
  import opened Decimals
  import opened Models

  /** The form fields the validators report on. */
  datatype Field = CurrencyField | CardKindField | BankNameField | Last4Field | AccountField

  datatype FormError = FormError(field: Field, message: string)

  /** The messages `add_error` records for `field`, in order. */
  function ErrorsOn(errors: seq<FormError>, field: Field): (r: seq<string>)
    ensures |r| <= |errors|
  {
    if errors == [] then []
    else (if errors[0].field == field then [errors[0].message] else []) + ErrorsOn(errors[1..], field)
  }

  lemma {:induction false} ErrorsOnAppend(a: seq<FormError>, b: seq<FormError>, field: Field)
    ensures ErrorsOn(a + b, field) == ErrorsOn(a, field) + ErrorsOn(b, field)
  {
    if a == [] {
      assert a + b == b;
    } else {
      assert (a + b)[0] == a[0];
      assert (a + b)[1..] == a[1..] + b;
      ErrorsOnAppend(a[1..], b, field);
      var h := if a[0].field == field then [a[0].message] else [];
      assert ErrorsOn(a + b, field) == h + ErrorsOn(a[1..] + b, field);
      assert ErrorsOn(a, field) == h + ErrorsOn(a[1..], field);
    }
  }

  /** Python truthiness of an optional string: `None` and `""` are falsy. */
  predicate Blank(v: Option<string>) {
    v.None? || v.value == ""
  }

  // ---- str.strip() and str.isdigit() -------------------------------------

  /** `str.isspace()`: the characters Python strips by default. */
  predicate IsSpace(c: char) {
    || c == ' ' || '\t' <= c <= '\r' || '\U{1c}' <= c <= '\U{1f}'
    || c == '\U{85}' || c == '\U{a0}' || c == '\U{1680}' || '\U{2000}' <= c <= '\U{200a}'
    || c == '\U{2028}' || c == '\U{2029}' || c == '\U{202f}' || c == '\U{205f}' || c == '\U{3000}'
  }

  function TrimStart(s: string): string {
    if s != [] && IsSpace(s[0]) then TrimStart(s[1..]) else s
  }

  function TrimEnd(s: string): string {
    if s != [] && IsSpace(s[|s| - 1]) then TrimEnd(s[..|s| - 1]) else s
  }

  /** `str.strip()`: a piece of `s` that neither starts nor ends with
      whitespace. */
  function Strip(s: string): (r: string)
    ensures |r| <= |s|
    ensures r != [] ==> !IsSpace(r[0]) && !IsSpace(r[|r| - 1])
  {
    TrimStartSpec(s);
    TrimEndSpec(TrimStart(s));
    TrimEnd(TrimStart(s))
  }

  lemma {:induction false} TrimStartSpec(s: string)
    ensures var r := TrimStart(s);
      && |r| <= |s| && r == s[|s| - |r|..]
      && (forall k :: 0 <= k < |s| - |r| ==> IsSpace(s[k]))
      && (r != [] ==> !IsSpace(r[0]))
  {
    if s != [] && IsSpace(s[0]) {
      var t := s[1..];
      TrimStartSpec(t);
      var r := TrimStart(t);
      assert TrimStart(s) == r;
      assert s[|s| - |r|..] == t[|t| - |r|..];
      forall k | 0 <= k < |s| - |r| ensures IsSpace(s[k]) {
        if k > 0 {
          assert s[k] == t[k - 1];
        }
      }
    }
  }

  lemma {:induction false} TrimEndSpec(s: string)
    ensures var r := TrimEnd(s);
      && |r| <= |s| && r == s[..|r|]
      && (forall k :: |r| <= k < |s| ==> IsSpace(s[k]))
      && (r != [] ==> !IsSpace(r[|r| - 1]))
  {
    if s != [] && IsSpace(s[|s| - 1]) {
      var t := s[..|s| - 1];
      TrimEndSpec(t);
      var r := TrimEnd(t);
      assert TrimEnd(s) == r;
      assert s[..|r|] == t[..|r|];
      forall k | |r| <= k < |s| ensures IsSpace(s[k]) {
        if k < |s| - 1 {
          assert s[k] == t[k];
        }
      }
    }
  }

  /** What `strip` keeps neither starts nor ends with whitespace, and it is
      the middle of `s` between `i` leading and some trailing whitespace. */
  lemma StripSpec(s: string)
    ensures var r, i := Strip(s), |s| - |TrimStart(s)|;
      && 0 <= i && i + |r| <= |s| && r == s[i..i + |r|]
      && (forall k :: 0 <= k < i ==> IsSpace(s[k]))
      && (forall k :: i + |r| <= k < |s| ==> IsSpace(s[k]))
      && (r != [] ==> !IsSpace(r[0]) && !IsSpace(r[|r| - 1]))
  {
    var t := TrimStart(s);
    TrimStartSpec(s);
    TrimEndSpec(t);
    var r := TrimEnd(t);
    var i := |s| - |t|;
    assert t == s[i..];
    assert r == t[..|r|];
    forall k | i + |r| <= k < |s|
      ensures IsSpace(s[k])
    {
      assert s[k] == t[k - i];
    }
  }

  /** Stripping a stripped string changes nothing. */
  lemma StripIdempotent(s: string)
    ensures Strip(Strip(s)) == Strip(s)
  {
    StripSpec(s);
    var r := Strip(s);
    if r != [] {
      assert TrimStart(r) == r;
      assert TrimEnd(r) == r;
    }
  }

  /** `(last4 or "").strip()` must be four digits: a missing value or one
      shorter than four characters never passes. */
  predicate Last4Accepted(last4: Option<string>)
    ensures Last4Accepted(last4) ==> last4.Some? && 4 <= |last4.value|
  {
    var t := Strip(match last4 case Some(s) => s case None => "");
    |t| == 4 && AllDigits(t)
  }

  lemma Last4Examples()
    ensures !Last4Accepted(Some("12a4")) && !Last4Accepted(Some("123"))
    ensures Last4Accepted(Some("1234")) && Last4Accepted(Some(" 1234 "))
    ensures !Last4Accepted(None)
  {
    assert Strip("12a4") == "12a4";
    assert !IsDigit("12a4"[2]);
    assert Strip("123") == "123";
    assert Strip("1234") == "1234";
    assert TrimStart(" 1234 ") == TrimStart("1234 ") == "1234 ";
    assert "1234 "[..4] == "1234";
    assert TrimEnd("1234 ") == TrimEnd("1234") == "1234";
    assert Strip("") == "";
  }

  // ---- AccountForm.clean -------------------------------------------------

  datatype AccountData = AccountData(
    accountType: Option<string>,
    currency: Option<string>,
    cardKind: Option<string>,
    bankName: Option<string>,
    last4: Option<string>)

  const CardCurrencyMessage := "Karta pul birligini tanlang."
  const CardKindMessage := "Karta turini tanlang."
  const BankNameMessage := "Bank nomini kiriting."
  const Last4Message := "Oxirgi 4 raqamni to\U{2018}g\U{2018}ri kiriting (masalan: 1234)."
  const CurrencyMessage := "Pul birligini tanlang."

  predicate IsCashLike(t: Option<string>) {
    t == Some("CASH") || t == Some("CURR")
  }

  /** `AccountForm.clean`. A card needs a currency, a card kind, a bank name and
      a four-digit `last4`, each missing one reported on its own field; cash
      (and "CURR") needs a currency and has its card fields cleared; any other
      type passes untouched. */
  method CleanAccount(cleaned: AccountData) returns (out: AccountData, errors: seq<FormError>)
    ensures cleaned.accountType == Some("CARD") ==>
      && ErrorsOn(errors, CurrencyField) == (if Blank(cleaned.currency) then [CardCurrencyMessage] else [])
      && ErrorsOn(errors, CardKindField) == (if Blank(cleaned.cardKind) then [CardKindMessage] else [])
      && ErrorsOn(errors, BankNameField) == (if Blank(cleaned.bankName) then [BankNameMessage] else [])
      && ErrorsOn(errors, Last4Field) == (if Last4Accepted(cleaned.last4) then [] else [Last4Message])
      && ErrorsOn(errors, AccountField) == []
      && out.accountType == cleaned.accountType
      && out.currency == (if Blank(cleaned.currency) then None else cleaned.currency)
      && out.cardKind == (if Blank(cleaned.cardKind) then None else cleaned.cardKind)
      && out.bankName == (if Blank(cleaned.bankName) then None else cleaned.bankName)
      && out.last4 == (if Last4Accepted(cleaned.last4) then cleaned.last4 else None)
    ensures IsCashLike(cleaned.accountType) ==>
      && errors == ErrorIf(Blank(cleaned.currency), CurrencyField, CurrencyMessage)
      && out == AccountData(cleaned.accountType, if Blank(cleaned.currency) then None else cleaned.currency,
                            None, None, None)
    ensures cleaned.accountType != Some("CARD") && !IsCashLike(cleaned.accountType) ==>
      errors == [] && out == cleaned
  {
    out, errors := cleaned, [];
    var a := cleaned.accountType;
    if a == Some("CARD") {
      ghost var b1, b2, b3 := Blank(cleaned.currency), Blank(cleaned.cardKind), Blank(cleaned.bankName);
      ghost var b4 := !Last4Accepted(cleaned.last4);
      if Blank(out.currency) {
        errors := errors + [FormError(CurrencyField, CardCurrencyMessage)];
        out := out.(currency := None);
      }
      assert errors == ErrorIf(b1, CurrencyField, CardCurrencyMessage);
      if Blank(out.cardKind) {
        errors := errors + [FormError(CardKindField, CardKindMessage)];
        out := out.(cardKind := None);
      }
      assert errors == ErrorIf(b1, CurrencyField, CardCurrencyMessage) + ErrorIf(b2, CardKindField, CardKindMessage);
      if Blank(out.bankName) {
        errors := errors + [FormError(BankNameField, BankNameMessage)];
        out := out.(bankName := None);
      }
      assert errors == ErrorIf(b1, CurrencyField, CardCurrencyMessage) + ErrorIf(b2, CardKindField, CardKindMessage)
        + ErrorIf(b3, BankNameField, BankNameMessage);
      if !Last4Accepted(out.last4) {
        errors := errors + [FormError(Last4Field, Last4Message)];
        out := out.(last4 := None);
      }
      assert errors == CardErrorList(b1, b2, b3, b4);
      CardErrors(b1, b2, b3, b4);
    } else if IsCashLike(a) {
      if Blank(out.currency) {
        errors := errors + [FormError(CurrencyField, CurrencyMessage)];
        out := out.(currency := None);
      }
      out := out.(cardKind := None, bankName := None, last4 := None);
    }
  }

  /** The one-element error list `add_error` leaves when `b` holds. */
  function ErrorIf(b: bool, field: Field, message: string): (r: seq<FormError>)
    ensures r == [] <==> !b
  {
    if b then [FormError(field, message)] else []
  }

  function CardErrorList(b1: bool, b2: bool, b3: bool, b4: bool): seq<FormError> {
    ErrorIf(b1, CurrencyField, CardCurrencyMessage) + ErrorIf(b2, CardKindField, CardKindMessage)
    + ErrorIf(b3, BankNameField, BankNameMessage) + ErrorIf(b4, Last4Field, Last4Message)
  }

  lemma ErrorsOnErrorIf(b: bool, field: Field, message: string, f: Field)
    ensures ErrorsOn(ErrorIf(b, field, message), f) == (if b && field == f then [message] else [])
  {
    if b {
      assert ErrorIf(b, field, message)[1..] == [];
    }
  }

  /** The card branch's errors on `f` are those of its four parts, in order. */
  lemma CardErrorsOn(b1: bool, b2: bool, b3: bool, b4: bool, f: Field)
    ensures ErrorsOn(CardErrorList(b1, b2, b3, b4), f)
      == (if b1 && f == CurrencyField then [CardCurrencyMessage] else [])
       + (if b2 && f == CardKindField then [CardKindMessage] else [])
       + (if b3 && f == BankNameField then [BankNameMessage] else [])
       + (if b4 && f == Last4Field then [Last4Message] else [])
  {
    var e1 := ErrorIf(b1, CurrencyField, CardCurrencyMessage);
    var e2 := ErrorIf(b2, CardKindField, CardKindMessage);
    var e3 := ErrorIf(b3, BankNameField, BankNameMessage);
    var e4 := ErrorIf(b4, Last4Field, Last4Message);
    ErrorsOnAppend(e1 + e2 + e3, e4, f);
    ErrorsOnAppend(e1 + e2, e3, f);
    ErrorsOnAppend(e1, e2, f);
    ErrorsOnErrorIf(b1, CurrencyField, CardCurrencyMessage, f);
    ErrorsOnErrorIf(b2, CardKindField, CardKindMessage, f);
    ErrorsOnErrorIf(b3, BankNameField, BankNameMessage, f);
    ErrorsOnErrorIf(b4, Last4Field, Last4Message, f);
  }

  /** The card branch's error list, one field at a time. */
  lemma CardErrors(b1: bool, b2: bool, b3: bool, b4: bool)
    ensures ErrorsOn(CardErrorList(b1, b2, b3, b4), CurrencyField) == (if b1 then [CardCurrencyMessage] else [])
    ensures ErrorsOn(CardErrorList(b1, b2, b3, b4), CardKindField) == (if b2 then [CardKindMessage] else [])
    ensures ErrorsOn(CardErrorList(b1, b2, b3, b4), BankNameField) == (if b3 then [BankNameMessage] else [])
    ensures ErrorsOn(CardErrorList(b1, b2, b3, b4), Last4Field) == (if b4 then [Last4Message] else [])
    ensures ErrorsOn(CardErrorList(b1, b2, b3, b4), AccountField) == []
  {
    CardErrorsOn(b1, b2, b3, b4, CurrencyField);
    CardErrorsOn(b1, b2, b3, b4, CardKindField);
    CardErrorsOn(b1, b2, b3, b4, BankNameField);
    CardErrorsOn(b1, b2, b3, b4, Last4Field);
    CardErrorsOn(b1, b2, b3, b4, AccountField);
  }

  // ---- TransactionForm.clean ---------------------------------------------

  datatype TransactionData = TransactionData(
    direction: Option<string>,
    category: Option<Category>,
    currency: Option<string>,
    account: Option<Account>,
    amount: Option<real>,
    date: Option<Date>,
    note: Option<string>)

  const NotYourAccountMessage := "Bu hisob sizga tegishli emas."
  const CurrencyMismatchMessage := "Tanlangan hisob valyutasi currency bilan mos emas."

  /** The selected account's currency is not the selected currency. */
  predicate CurrencyDiffers(acc: Account, cur: string) {
    acc.currency.None? || CurrencyCode(acc.currency.value) != cur
  }

  datatype Cleaned<T> = Cleaned(data: T, errors: seq<FormError>)

  /** `TransactionForm.clean` for the form's user (`None` when the form was
      built without one). Another user's account gives exactly one account
      error and skips the currency check; otherwise an account whose currency
      differs from a selected currency gives one; nothing else is reported,
      and only `add_error`'s removal of `account` touches the data. */
  function CleanTransaction(user: Option<UserId>, cleaned: TransactionData): (r: Cleaned<TransactionData>)
    ensures |r.errors| <= 1
    ensures forall e :: e in r.errors ==> e.field == AccountField
    ensures (user.Some? && cleaned.account.Some? && cleaned.account.value.user != user.value)
      ==> r.errors == [FormError(AccountField, NotYourAccountMessage)]
    ensures !(user.Some? && cleaned.account.Some? && cleaned.account.value.user != user.value) ==>
      (r.errors != [] <==> cleaned.account.Some? && !Blank(cleaned.currency)
                           && CurrencyDiffers(cleaned.account.value, cleaned.currency.value))
    ensures !(user.Some? && cleaned.account.Some? && cleaned.account.value.user != user.value) && r.errors != [] ==>
      r.errors == [FormError(AccountField, CurrencyMismatchMessage)]
    ensures r.data == (if r.errors == [] then cleaned else cleaned.(account := None))
  {
    var cur, acc := cleaned.currency, cleaned.account;
    if user.Some? && acc.Some? && acc.value.user != user.value then
      Cleaned(cleaned.(account := None), [FormError(AccountField, NotYourAccountMessage)])
    else if acc.Some? && !Blank(cur) && CurrencyDiffers(acc.value, cur.value) then
      Cleaned(cleaned.(account := None), [FormError(AccountField, CurrencyMismatchMessage)])
    else
      Cleaned(cleaned, [])
  }
}
