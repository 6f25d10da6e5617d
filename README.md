# Personal-finance ledger: a verified model

This project is a Dafny model of the core of a small Django application for
personal finance. A user keeps accounts, which are cash or cards, in so'm
(UZS) or US dollars (USD). Each transaction is income (`IN`) or an expense
(`EX`) of one account, and belongs to one of the user's categories. The model
covers:

- the records and their choice lists (`finance/models.py`);
- the exchange-rate helpers: rounding to cents (`_q`), `get_rate` and
  `convert` (`finance/services/exchange.py`);
- the Central Bank rate importer's parsing and its upsert
  (`finance/services/cbu.py`);
- the cross-field validation of the account and transaction forms
  (`finance/forms.py`);
- the dashboard, the monthly report, the transfer between two accounts and
  the monthly analytics series (`finance/views.py`);
- the profile page's per-account balances and combined total
  (`users/views.py`).

Database tables are sequences of records in insertion order, and querysets
are filters over them. `Decimal` amounts are exact `real`s. The places where
the source updates state in place are imperative Dafny:

- the transfer view writes to the category, transaction and transfer tables
  (`Transfers.Ledger`);
- `update_or_create` writes to the rate table (`Cbu.RateStore`);
- the analytics view fills a bucket in a loop (`Analytics.FillBucket`);
- the profile page sets a balance on each listed account object
  (`Profile.AccountEntry`, `Profile.AnnotateBalances`).

The modules are:

- `Wrappers`: `Option` and `Result`.
- `Seqs`: filters, stable sort and distinctness.
- `Decimals`: cent rounding and `Decimal(str)` for plain decimals.
- `Dates`: dates and months.
- `Models`: records and choices.
- `Exchange`, `Cbu`, `Forms`, `Totals`, `Transfers`, `Analytics` and `Profile`.

The model follows the code in these points:

- `get_rate` takes `.first()` of the matching records without an `order_by`.
  Django then orders by primary key (assuming `ExchangeRate` declares no
  ordering; see "## Left out"), so it returns the earliest stored record
  dated on or before the day, not necessarily the most recent one
  (`Exchange.GetRate`).
- A transaction has no currency field of its own. Its currency is its
  account's currency.
- Django's `add_error(field, …)` also removes `field` from `cleaned_data`. So
  `TransactionForm.clean` drops the chosen account whenever it reports an
  error; it does not leave the cleaned data untouched (`Forms.CleanTransaction`).
- The profile's rate is that of the latest USD→UZS record of any date,
  including dates after today, and it is 0 when there is none. The profile's
  total is not rounded. The dashboard instead converts at a rate dated today
  or earlier, rounds to cents and falls back to 0. `Profile.FutureRateOnlyOnProfile`
  states the difference.

## Model

| member | source | states |
|---|---|---|
| `Models.ParseCurrency` | finance/models.py:11-14 | exactly the codes "UZS" and "USD" are accepted, and the accepted choice prints back as the given code |
| `Models.CurrencyCodeRoundTrip` | finance/models.py:11-14 | reading a currency's stored code gives back that currency |
| `Models.ListedBeforeIsStrictTotal` | finance/models.py:62-63 | the default order, newest date first and then highest id first, is irreflexive and transitive; of two transactions with distinct ids exactly one comes first |
| `Models.FitsAmountFieldCents` | finance/models.py:58 | every two-decimal amount of at most 13 integer digits fits `max_digits=15, decimal_places=2` |
| `Decimals.Quantize` | finance/services/exchange.py:5-6 | `_q` returns a whole number of cents, at most half a cent away, no farther from the input than any other cent value, and a tie goes away from zero |
| `Decimals.QuantizeCents` | finance/services/exchange.py:5-6 | an amount that already has two decimals is left unchanged |
| `Decimals.QuantizeIdempotent` | finance/services/exchange.py:5-6 | rounding twice is rounding once |
| `Decimals.QuantizeNegate` | finance/services/exchange.py:5-6 | ROUND_HALF_UP is symmetric: rounding `-x` gives minus the rounding of `x` |
| `Decimals.QuantizeTies` | finance/services/exchange.py:5-6 | 1.005 rounds to 1.01 and -1.005 to -1.01 |
| `Exchange.LookupDate` | finance/services/exchange.py:12-13 | the given date is used, and today when none is given |
| `Exchange.FirstApplicable` | finance/services/exchange.py:15-19 | the record found has the pair, is dated on or before the day, and no earlier record qualifies; none is found exactly when no record qualifies |
| `Exchange.GetRate` | finance/services/exchange.py:8-24 | the same currency gives 1; otherwise it fails with "rate not found" exactly when no record of the pair is dated on or before the lookup date, and it succeeds with the rate of the earliest such record in primary-key order |
| `Exchange.Convert` | finance/services/exchange.py:26-27 | it fails exactly when `get_rate` does; otherwise the result is `Quantize` (ROUND_HALF_UP to cents) of amount × `get_rate`'s rate, hence in cents and within half a cent of the product |
| `Exchange.ConvertSameCurrency` | finance/services/exchange.py:8-10 | converting to the same currency reads no rate and only rounds the amount |
| `Exchange.ConvertUsesStoredRate` | finance/services/exchange.py:26-27 | a successful conversion is the rounded product of the amount and the rate of the earliest stored applicable record |
| `Exchange.GetRateSingleRecord` | finance/services/exchange.py:15-24 | when exactly one record qualifies, its rate is returned |
| `Cbu.FirstUsd` | finance/services/cbu.py:19-21 | the first entry whose `Ccy` is "USD", and none exactly when no entry is USD |
| `Cbu.ParseRate` | finance/services/cbu.py:24 | a rate without a comma reads exactly as `Decimal` reads it |
| `Cbu.NormalizeRate` | finance/services/cbu.py:24 | each comma becomes a dot, nothing else changes, and the length is kept |
| `Cbu.ParseRateEitherSeparator` | finance/services/cbu.py:24 | a cents amount written with a comma or with a dot reads back as the same exact value |
| `Cbu.ParseRateExample` | finance/services/cbu.py:23-24 | "11969,66" and "11969.66" both read as 11969.66 |
| `Decimals.ParseDecimal` | finance/services/cbu.py:24 | `Decimal(str)` fails on empty text; a numeral without a leading minus is never negative, and one with it never positive |
| `Decimals.ParseFormatCents` | finance/services/cbu.py:24 | `Decimal(str)` reads a dot-decimal cents string back exactly |
| `Cbu.ParseDayField` | finance/services/cbu.py:25 | an accepted `%d` field is a day from 1 to 31 |
| `Cbu.ParseMonthField` | finance/services/cbu.py:25 | an accepted `%m` field is a month from 1 to 12 |
| `Cbu.ParseDate` | finance/services/cbu.py:25 | `strptime("%d.%m.%Y")` accepts only real calendar dates |
| `Cbu.ParseFormatDate` | finance/services/cbu.py:25 | every valid date written as dd.mm.yyyy parses back to itself |
| `Cbu.ParseDateExample` | finance/services/cbu.py:23-25 | "16.01.2026" is 16 January 2026 |
| `Cbu.ReadUsdQuote` | finance/services/cbu.py:19-25 | it fails with "USD missing" exactly when no entry is USD; for the first USD entry it reports a missing rate, an unparsable rate, a missing date or an unparsable date exactly when that is the first step to fail, and succeeds exactly when none fails, with the parsed rate and date |
| `Cbu.KeyIndex` | finance/services/cbu.py:27-32 | the first record with the (base, quote, date) key, and none exactly when there is no such record |
| `Cbu.Upserted` | finance/services/cbu.py:27-32 | the upsert keeps every record with another key in place and adds at most one record, the new one |
| `Cbu.UpsertedHoldsOne` | finance/services/cbu.py:27-32 | the keys stay unique, and afterwards exactly one record has the key, holding the new rate |
| `Cbu.UpsertedIdempotent` | finance/services/cbu.py:27-32 | a second identical upsert changes nothing |
| `Cbu.RateStore.UpdateOrCreate` | finance/services/cbu.py:27-33 | the table becomes the upserted table, the object holds the new rate, and `created` is true exactly when no record had the key |
| `Cbu.RateStore.UpdateUsdUzs` | finance/services/cbu.py:10-33 | a feed error leaves the table alone and is reported as the feed's error; otherwise the first USD quote is upserted as USD→UZS |
| `Cbu.UpdateTwice` | finance/services/cbu.py:27-33 | importing the same feed twice leaves the table as one import does, and the second run reports no creation |
| `Forms.TrimStartSpec` | finance/forms.py:21 | stripping leading whitespace drops a whitespace prefix and leaves a suffix that starts with a non-space |
| `Forms.TrimEndSpec` | finance/forms.py:21 | stripping trailing whitespace drops a whitespace suffix and leaves a prefix that ends with a non-space |
| `Forms.Strip` | finance/forms.py:21 | `strip()` returns no more than its input, neither starting nor ending with whitespace |
| `Forms.StripSpec` | finance/forms.py:21 | `strip()` returns a contiguous slice with only whitespace around it that neither starts nor ends with whitespace |
| `Forms.StripIdempotent` | finance/forms.py:21 | stripping twice is stripping once |
| `Forms.Last4Accepted` | finance/forms.py:21-23 | a missing `last4`, or one shorter than four characters, is rejected |
| `Forms.Last4Examples` | finance/forms.py:21-23 | "1234" and " 1234 " pass, while "12a4", "123" and a missing value fail |
| `Forms.CleanAccount` | finance/forms.py:10-31 | card: one error per blank currency, card kind or bank name, one for `last4` unless it is four digits after stripping, and the erroring fields cleared; cash (or "CURR"): an error when the currency is blank, card fields set to None; any other type: unchanged and no errors |
| `Forms.CleanTransaction` | finance/forms.py:74-85 | another user's account gives only the ownership error; otherwise the currency-mismatch error is reported exactly when both are given and the account's currency differs; at most one error, always on `account`, and the account is dropped exactly when there is one |
| `Seqs.Filter` | finance/views.py:27-34 | a queryset filter keeps exactly the rows that satisfy the condition, all taken from the input |
| `Seqs.SortBy` | finance/views.py:305 | `sorted` returns a permutation of its input, ordered by the key |
| `Totals.SumAmount` | finance/views.py:16-17 | the sum of an empty queryset is 0, and of one row its amount |
| `Totals.SumAmountAppend` | finance/views.py:16-17 | the sum over two querysets together is the sum of their sums |
| `Totals.SumAmountSplit` | finance/views.py:16-17 | the sums of the rows that meet a condition and of the rows that do not add up to the whole |
| `Totals.SumAmountNone` | finance/views.py:16-17 | a sum over a filter nothing satisfies is 0 |
| `Totals.AccountOf` | finance/views.py:39-45 | the join to the account table finds the account with that id, and none exactly when no account has it |
| `Totals.CategoryOf` | finance/views.py:30 | the join to the category table finds the category with that id, and none exactly when no category has it |
| `Totals.IContains` | finance/views.py:30 | true exactly when the text occurs somewhere in the field, ignoring ASCII case |
| `Totals.IContainsExamples` | finance/views.py:30 | "maosh" is found in "Oylik Maosh", "bus" is not in "Taxi", and the empty text is found everywhere |
| `Totals.UserRows` | finance/views.py:27 | only the user's transactions are kept, and all of them |
| `Totals.DateRange` | finance/views.py:31-34 | a row is kept exactly when it lies within whichever of the start and end bounds are given |
| `Totals.DashboardRows` | finance/views.py:27-34 | every listed row is one of the stored transactions of the user |
| `Totals.DashboardRowsKeep` | finance/views.py:27-34 | a transaction is listed exactly when it is the user's, the text occurs in its note or its category's name, and it lies within the given dates |
| `Totals.TotalsOf` | finance/views.py:38-46 | balance = income − expense; an empty queryset gives zeros |
| `Totals.TotalsAreAccumulated` | finance/views.py:38-46 | the per-currency totals equal the totals built one transaction at a time, each adding its amount to income or expense only when its account holds that currency |
| `Totals.TotalsAppend` | finance/views.py:38-46 | the totals of two sets of rows together are the sums of their totals |
| `Totals.UsdInUzsOrZero` | finance/views.py:50-53 | the converted USD balance, or 0 when `convert` raises |
| `Totals.Dashboard` | finance/views.py:20-55 | its rows are the filtered rows; its figures are the per-currency totals of those rows and the UZS balance plus the converted-or-zero USD balance |
| `Totals.DashboardTotalWithoutRate` | finance/views.py:48-55 | with no USD→UZS rate dated today or earlier, the combined total is the UZS balance |
| `Totals.DashboardTotalWithRate` | finance/views.py:48-55 | with such a rate, the combined total is the UZS balance plus the USD balance times the earliest stored applicable record's rate, rounded to cents |
| `Totals.UsdInUzsAtEarliest` | finance/views.py:48-55 | with an applicable USD→UZS record, the converted-or-zero figure is the USD balance times the earliest such record's rate, rounded to cents |
| `Totals.MonthlyReport` | finance/views.py:199-217 | the report's rows are exactly the user's within the given dates, and its figures are their per-currency totals |
| `Totals.ReportMatchesDashboard` | finance/views.py:199-217 | without search text, the report and the dashboard show the same rows and totals for the same dates |
| `Totals.BalanceExample` | finance/views.py:211-213 | 500 in and 200 out on a UZS account make a balance of 300 |
| `Transfers.Matching` | finance/views.py:248-253 | the matching categories are no more than the table holds |
| `Transfers.MatchingSpec` | finance/views.py:248-253 | a category matches exactly when it is in the table with the given user, type and name |
| `Transfers.MatchingOtherDirection` | finance/views.py:248-253 | adding a category of the other type leaves the matches unchanged |
| `Transfers.LegNote` | finance/views.py:262 | `(note or "")[:200]` is a prefix of the note of at most 200 characters: empty when there is no note, the whole note when it fits |
| `Transfers.InAmount` | finance/views.py:265 | the incoming amount is `amount_to` when it is set, else `amount_from` |
| `Transfers.WithCategory` | finance/views.py:248-250 | `get_or_create` keeps the table as a prefix and appends one category exactly when none matched |
| `Transfers.WithCategoryMatches` | finance/views.py:248-253 | after `get_or_create` with at most one match, exactly one category matches |
| `Transfers.WithCategoryOther` | finance/views.py:248-253 | creating a category of one type does not change the matches of the other type |
| `Transfers.TransferCategories` | finance/views.py:248-253 | the two look-ups add at most two categories |
| `Transfers.TransferCategoriesSettle` | finance/views.py:248-253 | afterwards each transfer category exists exactly once, and a further transfer adds none |
| `Transfers.LookedUpIsOnlyMatch` | finance/views.py:248-253 | the category `get_or_create` returns is then the only match |
| `Transfers.Ledger.GetOrCreateCategory` | finance/views.py:248-250 | no match creates the category with the next id, one match returns it, and two or more raise without changing anything |
| `Transfers.Ledger.CreateTransaction` | finance/views.py:255-263 | one row with the next id is appended and nothing else changes |
| `Transfers.Ledger.SaveTransfer` | finance/views.py:246 | the transfer is stored with the next id and nothing else changes |
| `Transfers.Ledger.LinkLegs` | finance/views.py:276-278 | only the last transfer's `out_tx` and `in_tx` change |
| `Transfers.Ledger.Restore` | finance/views.py:245 | the end of the `atomic` block: the tables and counters get back the saved state |
| `Transfers.Ledger.LookUpTransferCategories` | finance/views.py:248-253 | it fails exactly when a transfer category already has two or more matches; otherwise it returns the only match of each |
| `Transfers.Ledger.CreateLegs` | finance/views.py:255-274 | an EX leg from `from_account` for `amount_from` and an IN leg to `to_account` for the incoming amount, on the transfer's date with the cut note, are appended in that order |
| `Transfers.Ledger.TransferCreate` | finance/views.py:240-280 | it fails exactly when `get_or_create` would raise, and then leaves every table as it was; otherwise it stores the transfer linked to two new legs in one category each and changes nothing else |
| `Transfers.TransferTwice` | finance/views.py:245-278 | two transfers in a row both succeed, add four transaction rows and create each transfer category at most once |
| `Analytics.MissingDirectionIsZero` | finance/views.py:290-297 | a month and type with no rows totals 0 |
| `Analytics.BaseRows` | finance/views.py:290-292 | the base rows are exactly the stored transactions of the user, year and account currency asked for |
| `Analytics.GroupKeys` | finance/views.py:290-297 | the group keys are exactly the (month, type) pairs of the base rows, each listed once |
| `Analytics.Unsorted` | finance/views.py:290-297 | one group row per key, holding that key's sum |
| `Analytics.Grouped` | finance/views.py:290-297 | the grouped rows are ordered by month |
| `Analytics.GroupedOnePerKey` | finance/views.py:290-297 | no two grouped rows share a month and type: one row per group |
| `Analytics.GroupedAgree` | finance/views.py:290-297 | each grouped row's total is the sum of its month and type |
| `Analytics.GroupedSound` | finance/views.py:290-297 | every grouped row comes from some base row |
| `Analytics.GroupedComplete` | finance/views.py:290-297 | every base row's month and type appear as a group |
| `Analytics.GroupedCovers` | finance/views.py:290-297 | a month and type appear as a group exactly when some base row has them |
| `Analytics.Put` | finance/views.py:302-303 | `setdefault` and the assignment make the month a key and keep the other keys |
| `Analytics.BucketOf` | finance/views.py:299-303 | the last group row seen is recorded for its month under its type, since a later row overwrites |
| `Analytics.FillBucket` | finance/views.py:299-303 | the loop builds the bucket that the grouped rows define |
| `Analytics.BucketSpec` | finance/views.py:299-303 | a month is in the bucket exactly when a group has it, with the last total of each type seen for it, or 0 |
| `Analytics.LastTotalAbsent` | finance/views.py:302 | a month with no group keeps the initial 0 |
| `Analytics.LastTotalAgrees` | finance/views.py:299-303 | over agreeing groups the last total of a month and type is that month's sum, or 0 when no group has it |
| `Analytics.GroupedLastTotal` | finance/views.py:290-303 | over the grouped rows the last total is the month's sum for that type |
| `Analytics.BucketOfGrouped` | finance/views.py:290-303 | the bucket holds exactly the months with base rows, each with that month's income and expense sums |
| `Analytics.SortedLabels` | finance/views.py:305 | `sorted(bucket.keys())` lists each month of the bucket once, in ascending order |
| `Analytics.LabelsStrictlyAscending` | finance/views.py:305 | distinct sorted months follow each other strictly |
| `Analytics.Series` | finance/views.py:306-307 | the two lists are as long as the labels and read each label's income and expense from the bucket |
| `Analytics.Analytics` | finance/views.py:286-307 | the labels are exactly the months with base rows, distinct and ascending, and each holds that month's income and expense sums |
| `Profile.ProfileAccounts` | users/views.py:60 | no more accounts than are stored, by descending id |
| `Profile.ProfileAccountsMembers` | users/views.py:60 | an account is listed exactly when it is stored and belongs to the user |
| `Profile.ProfileAccountsStrictlyDescending` | users/views.py:60 | with unique ids, the ids strictly decrease down the list |
| `Profile.AccountBalanceIsRunning` | users/views.py:64-67 | an account's balance, income minus expense over its rows, equals the balance built one transaction at a time |
| `Profile.AccountBalance` | users/views.py:64-67 | an account no transaction refers to has balance 0 |
| `Profile.AccountBalanceAppend` | users/views.py:64-67 | one more transaction changes only its own account's balance, up by its amount for income and down for an expense |
| `Profile.ListAccounts` | users/views.py:60 | `list(...)` makes one fresh object per listed account, in the listing's order |
| `Profile.ProfileAccountBalances` | users/views.py:60-67 | the listed objects are the user's accounts newest first, each carrying its balance over the user's transactions |
| `Profile.AnnotateBalances` | users/views.py:64-67 | after the loop every listed object carries its account's balance |
| `Profile.LatestUsdUzs` | users/views.py:52-55 | some USD→UZS record that no other USD→UZS record postdates, of any date, and none exactly when there is no such record |
| `Profile.UsdRate` | users/views.py:52-55 | the rate of a latest USD→UZS record, and 0 when there is none |
| `Profile.ProfileTotals` | users/views.py:58-81 | each currency's figures are the totals of that currency over the user's transactions, the rate is `_get_usd_rate()`, each balance is income minus expense, and the total is balance_uzs + balance_usd × rate, unrounded |
| `Profile.ProfileMatchesDashboard` | users/views.py:69-77 | the profile's per-currency figures equal the dashboard's with no search text and no dates |
| `Profile.ProfileTotalWithoutRate` | users/views.py:80-81 | with no USD→UZS record the rate is 0 and the total is the UZS balance |
| `Profile.FutureRateOnlyOnProfile` | users/views.py:52-81 | a USD→UZS rate dated after today is used by the profile and ignored by the dashboard |

## Left out

- HTTP handling is not modelled: requests, redirects, templates, `login_required`, the URL table, the admin, user registration and login, and the profile-edit form. The CRUD views of accounts, categories, transactions and comments only save or delete a record.
- `update_usd_uzs` fetches its feed over the network (`requests.get`, `raise_for_status`, `.json()`). The decoded JSON list is a parameter of `UpdateUsdUzs` instead.
- The clock is not read: "today" (`timezone.localdate()`, `date.today()`) is a parameter.
- `Decimal` context precision (28 digits) is not modelled, and amounts are exact rationals. `Decimal(str)` accepts only an optional sign, ASCII digits and one optional point. Exponents, `NaN`/`Infinity`, surrounding whitespace, underscores and non-ASCII digits read as errors.
- `strptime` accepts ASCII digits only. A single-digit day or month is accepted; any other Unicode or locale behaviour is not modelled.
- `__icontains` folds ASCII letters only, as SQLite's `LIKE` does. Unicode case folding is not modelled.
- The dashboard's `start` and `end`, and the report's `parse_date` results, arrive as already-parsed optional dates. An unparsable date string, which Django rejects with an exception, is not modelled.
- `order_by(order)` on the dashboard and `order_by("-date")` on the report are not modelled. Row order does not change any figure, and the default ordering is modelled on its own (`Models.ListedBefore`). An `order` value that names no field makes `order_by` raise `FieldError`; that error is not modelled.
- `Exchange.GetRate`: the `ExchangeRate` model class is not part of this model. The model takes it to declare no `Meta.ordering`, so that `.first()` orders by primary key and returns the earliest applicable record in table order; under a declared ordering it would return the first record in that ordering instead.
- `Profile.LatestUsdUzs`: when two USD→UZS records share the latest date, it does not say which is returned. The table's unique key makes that impossible anyway.
- `Analytics.Analytics` keeps months as `Month` values: the `"%Y-%m"` label strings are not built. `MonthKey` orders months as those strings sort for four-digit years. `float(...)` conversion is not modelled: totals stay exact. Query-string parsing of `year` (`int(...)`) is not modelled either.
- The analytics top-ten expense categories (`cat_qs`) are not modelled: they come from a separate sorted aggregate that is not part of this model.
- In `transfer_create`, `TransferForm` validation and `full_clean()` are not modelled, because the form is not part of this model. The transfer is taken as already validated. `db_transaction.atomic()` is modelled as restoring the saved tables on the one failure in the model, `get_or_create` finding two or more categories. Database and concurrency failures are not modelled.
- `Transfers.TransferTwice`: states only how many rows two transfers add and that the categories settle, not the full contents of the tables.
- `Profile.AccountEntry` stands for a Django model instance with an extra attribute. The objects start with a balance of 0 before the loop sets it.
- `Forms.CleanAccount`: `str.isdigit()` also accepts non-ASCII digits (Arabic-Indic digits, superscript digits and others), while the `last4` check (`Forms.Last4Accepted`) accepts ASCII `0`-`9` only. A `last4` of four such characters is accepted by the code and rejected by the model.
- `Forms.CleanTransaction` does not model the form's `__init__` queryset narrowing (choices limited to the user's accounts of the chosen currency). That field-level validation happens before `clean`.
- `AccountForm` and `TransactionForm` field-level validation (choice membership, lengths) is not modelled. Only the `clean` methods are. Length and digit limits are stated as predicates in `Models` (`AccountFieldsValid`, `TransactionFieldsValid`).
- `__str__` methods are left out: they only display records.
