/** The body of `transfer_create` (finance/views.py): a transfer between two
    accounts is stored together with an expense leg on the source account and
    an income leg on the target account, both filed under per-user transfer
    categories that are looked up or created. The tables live in a `Ledger`. */
module Transfers {
  import opened Wrappers
  import opened Dates
  import opened Models
  import opened Seqs

  const OutCategoryName := "Transfer (chiqim)"
  const InCategoryName := "Transfer (kirim)"

  /** `get_or_create` found several matching categories
      (`MultipleObjectsReturned`); the atomic block is rolled back. */
  datatype LedgerError = MultipleCategories(user: UserId, direction: Direction, name: string)

  /** The categories `get_or_create(user=user, type=direction, name=name)` matches. */
  function Matching(categories: seq<Category>, user: UserId, direction: Direction, name: string)
    : (r: seq<Category>)
    ensures |r| <= |categories|
  {
    Filter(categories, (c: Category) => c.user == user && c.direction == direction && c.name == name)
  }

  /** The matches are exactly the table's categories with that key. */
  lemma MatchingSpec(categories: seq<Category>, user: UserId, direction: Direction, name: string, c: Category)
    ensures c in Matching(categories, user, direction, name) <==>
      (c in categories && c.user == user && c.direction == direction && c.name == name)
  {
  }

  /** A category of the other direction does not change the matches. */
  lemma MatchingOtherDirection(categories: seq<Category>, c: Category, user: UserId, direction: Direction, name: string)
    requires c.direction != direction
    ensures Matching(categories + [c], user, direction, name) == Matching(categories, user, direction, name)
  {
    var p := (x: Category) => x.user == user && x.direction == direction && x.name == name;
    FilterAppend(categories, [c], p);
    assert [c][1..] == [];
  }

  /** `(obj.note or "")[:200]`. */
  function LegNote(note: Option<string>): (r: string)
    ensures |r| <= NoteMaxLength
    ensures note.None? ==> r == ""
    ensures note.Some? ==> |r| <= |note.value| && r == note.value[..|r|]
    ensures note.Some? && |note.value| <= NoteMaxLength ==> r == note.value
    ensures note.Some? && |note.value| > NoteMaxLength ==> |r| == NoteMaxLength
  {
    match note
    case None => ""
    case Some(n) => if |n| <= NoteMaxLength then n else n[..NoteMaxLength]
  }

  /** `obj.amount_to if obj.amount_to is not None else obj.amount_from`. */
  function InAmount(t: Transfer): (r: real)
    ensures t.amountTo.Some? ==> r == t.amountTo.value
    ensures t.amountTo.None? ==> r == t.amountFrom
  {
    match t.amountTo
    case Some(a) => a
    case None => t.amountFrom
  }

  /** The table after `get_or_create` of (user, direction, name) when it
      does not fail: unchanged if the category exists, else extended by a new
      category with the next id. */
  function WithCategory(categories: seq<Category>, nextId: nat, user: UserId, name: string, direction: Direction)
    : (r: seq<Category>)
    ensures |r| == |categories| + (if Matching(categories, user, direction, name) == [] then 1 else 0)
    ensures r[..|categories|] == categories
  {
    if Matching(categories, user, direction, name) == [] then categories + [Category(nextId, user, name, direction)]
    else categories
  }

  /** After `get_or_create` the table holds the category, and only once when
      it held it at most once before. */
  lemma WithCategoryMatches(categories: seq<Category>, nextId: nat, user: UserId, name: string, direction: Direction)
    requires |Matching(categories, user, direction, name)| <= 1
    ensures |Matching(WithCategory(categories, nextId, user, name, direction), user, direction, name)| == 1
  {
    var p := (x: Category) => x.user == user && x.direction == direction && x.name == name;
    if Matching(categories, user, direction, name) == [] {
      var c := Category(nextId, user, name, direction);
      FilterAppend(categories, [c], p);
      assert [c][1..] == [];
    }
  }

  /** Creating a category of one direction leaves the matches of the other. */
  lemma WithCategoryOther(categories: seq<Category>, nextId: nat, user: UserId, name: string, direction: Direction,
                          name2: string, direction2: Direction)
    requires direction != direction2
    ensures Matching(WithCategory(categories, nextId, user, name, direction), user, direction2, name2)
         == Matching(categories, user, direction2, name2)
  {
    if Matching(categories, user, direction, name) == [] {
      MatchingOtherDirection(categories, Category(nextId, user, name, direction), user, direction2, name2);
    }
  }

  /** The category table after a successful transfer: the expense category
      looked up or created, then the income one. */
  function TransferCategories(categories: seq<Category>, nextId: nat, user: UserId): (r: seq<Category>)
    ensures |categories| <= |r| <= |categories| + 2
  {
    var mid := WithCategory(categories, nextId, user, OutCategoryName, EX);
    WithCategory(mid, nextId + (|mid| - |categories|), user, InCategoryName, IN)
  }

  /** The two look-ups one after the other, each with the id counter the
      first one left, make `TransferCategories`. */
  lemma TransferCategoriesSteps(categories: seq<Category>, nextId: nat, user: UserId, mid: seq<Category>, midId: nat)
    requires mid == WithCategory(categories, nextId, user, OutCategoryName, EX)
    requires midId == nextId + (|mid| - |categories|)
    ensures TransferCategories(categories, nextId, user) == WithCategory(mid, midId, user, InCategoryName, IN)
  {
  }

  /** After one transfer each transfer category exists exactly once, so a
      second transfer changes no category. */
  lemma TransferCategoriesSettle(categories: seq<Category>, nextId: nat, user: UserId)
    requires |Matching(categories, user, EX, OutCategoryName)| <= 1
    requires |Matching(categories, user, IN, InCategoryName)| <= 1
    ensures var after := TransferCategories(categories, nextId, user);
      && |Matching(after, user, EX, OutCategoryName)| == 1
      && |Matching(after, user, IN, InCategoryName)| == 1
      && forall k: nat :: TransferCategories(after, k, user) == after
  {
    var mid := WithCategory(categories, nextId, user, OutCategoryName, EX);
    WithCategoryMatches(categories, nextId, user, OutCategoryName, EX);
    WithCategoryOther(categories, nextId, user, OutCategoryName, EX, InCategoryName, IN);
    var next2 := nextId + (|mid| - |categories|);
    WithCategoryMatches(mid, next2, user, InCategoryName, IN);
    WithCategoryOther(mid, next2, user, InCategoryName, IN, OutCategoryName, EX);
  }

  /** Ids increase along a table and stay below the next id, so they are unique. */
  ghost predicate CategoryIds(categories: seq<Category>, nextId: nat) {
    && (forall i, j :: 0 <= i < j < |categories| ==> categories[i].id < categories[j].id)
    && (forall i :: 0 <= i < |categories| ==> categories[i].id < nextId)
  }

  ghost predicate TransactionIds(transactions: seq<Transaction>, nextId: nat) {
    && (forall i, j :: 0 <= i < j < |transactions| ==> transactions[i].id < transactions[j].id)
    && (forall i :: 0 <= i < |transactions| ==> transactions[i].id < nextId)
  }

  ghost predicate TransferIds(transfers: seq<Transfer>, nextId: nat) {
    && (forall i, j :: 0 <= i < j < |transfers| ==> transfers[i].id < transfers[j].id)
    && (forall i :: 0 <= i < |transfers| ==> transfers[i].id < nextId)
  }

  /** The stored tables and the id each table hands out next. */
  class Ledger {
    var categories: seq<Category>
    var transactions: seq<Transaction>
    var transfers: seq<Transfer>
    var nextCategoryId: nat
    var nextTransactionId: nat
    var nextTransferId: nat

    ghost predicate Valid()
      reads this
    {
      && CategoryIds(categories, nextCategoryId)
      && TransactionIds(transactions, nextTransactionId)
      && TransferIds(transfers, nextTransferId)
    }

    constructor ()
      ensures Valid()
      ensures categories == [] && transactions == [] && transfers == []
      ensures nextCategoryId == 1 && nextTransactionId == 1 && nextTransferId == 1
    {
      categories, transactions, transfers := [], [], [];
      nextCategoryId, nextTransactionId, nextTransferId := 1, 1, 1;
    }

    /** `Category.objects.get_or_create(user=user, type=direction, name=name)`:
        the one match, or a new category with the next id when there is none;
        several matches are an error and change nothing. The flag says
        whether the category was created. */
    method GetOrCreateCategory(user: UserId, direction: Direction, name: string)
      returns (r: Result<(Category, bool), LedgerError>)
      requires Valid()
      modifies this
      ensures Valid()
      ensures var m := Matching(old(categories), user, direction, name);
        && (|m| == 0 ==> r == Ok((Category(old(nextCategoryId), user, name, direction), true)))
        && (|m| == 1 ==> r == Ok((m[0], false)))
        && (|m| >= 2 ==> r == Err(MultipleCategories(user, direction, name)))
        && (|m| <= 1 ==> categories == WithCategory(old(categories), old(nextCategoryId), user, name, direction))
        && (|m| >= 2 ==> categories == old(categories))
      ensures nextCategoryId == old(nextCategoryId) + (|categories| - |old(categories)|)
      ensures transactions == old(transactions) && transfers == old(transfers)
      ensures nextTransactionId == old(nextTransactionId) && nextTransferId == old(nextTransferId)
    {
      var m := Matching(categories, user, direction, name);
      if |m| == 0 {
        var c := Category(nextCategoryId, user, name, direction);
        categories := categories + [c];
        nextCategoryId := nextCategoryId + 1;
        r := Ok((c, true));
      } else if |m| == 1 {
        r := Ok((m[0], false));
      } else {
        r := Err(MultipleCategories(user, direction, name));
      }
    }

    /** `Transaction.objects.create(...)` with the next id. */
    method CreateTransaction(user: UserId, direction: Direction, category: nat, account: nat,
                             amount: real, date: Date, note: string) returns (t: Transaction)
      requires Valid()
      modifies this
      ensures Valid()
      ensures t == Transaction(old(nextTransactionId), user, direction, category, account, amount, date, note)
      ensures transactions == old(transactions) + [t] && nextTransactionId == old(nextTransactionId) + 1
      ensures categories == old(categories) && transfers == old(transfers)
      ensures nextCategoryId == old(nextCategoryId) && nextTransferId == old(nextTransferId)
    {
      t := Transaction(nextTransactionId, user, direction, category, account, amount, date, note);
      transactions := transactions + [t];
      nextTransactionId := nextTransactionId + 1;
    }

    /** `obj.save()` of a new transfer: stored with the next id. */
    method SaveTransfer(t: Transfer) returns (saved: Transfer)
      requires Valid()
      modifies this
      ensures Valid()
      ensures saved == t.(id := old(nextTransferId))
      ensures transfers == old(transfers) + [saved] && nextTransferId == old(nextTransferId) + 1
      ensures categories == old(categories) && transactions == old(transactions)
      ensures nextCategoryId == old(nextCategoryId) && nextTransactionId == old(nextTransactionId)
    {
      saved := t.(id := nextTransferId);
      transfers := transfers + [saved];
      nextTransferId := nextTransferId + 1;
    }

    /** `obj.save(update_fields=["out_tx", "in_tx"])` on the last saved transfer. */
    method LinkLegs(outId: nat, inId: nat) returns (linked: Transfer)
      requires Valid() && transfers != []
      modifies this
      ensures Valid()
      ensures linked == old(transfers[|transfers| - 1]).(outTx := Some(outId), inTx := Some(inId))
      ensures transfers == old(transfers[..|transfers| - 1]) + [linked]
      ensures categories == old(categories) && transactions == old(transactions)
      ensures nextCategoryId == old(nextCategoryId) && nextTransactionId == old(nextTransactionId)
      ensures nextTransferId == old(nextTransferId)
    {
      linked := transfers[|transfers| - 1].(outTx := Some(outId), inTx := Some(inId));
      transfers := transfers[..|transfers| - 1] + [linked];
    }

    /** Discards every change since the tables were `cats`, `txs`, `trs` with
        the given next ids: the rollback of `transaction.atomic()`. */
    method Restore(cats: seq<Category>, txs: seq<Transaction>, trs: seq<Transfer>,
                   nextCat: nat, nextTx: nat, nextTr: nat)
      modifies this
      ensures categories == cats && transactions == txs && transfers == trs
      ensures nextCategoryId == nextCat && nextTransactionId == nextTx && nextTransferId == nextTr
    {
      categories, transactions, transfers := cats, txs, trs;
      nextCategoryId, nextTransactionId, nextTransferId := nextCat, nextTx, nextTr;
    }

    /** The two `get_or_create` calls of a transfer: expense category first,
        then income category. Either the table grows as `TransferCategories`
        says and the two returned categories are the user's only ones, or a
        lookup found several and the error is returned. */
    method LookUpTransferCategories(user: UserId) returns (r: Result<(Category, Category), LedgerError>)
      requires Valid()
      modifies this
      ensures Valid()
      ensures r.Err? <==>
        |Matching(old(categories), user, EX, OutCategoryName)| >= 2
        || |Matching(old(categories), user, IN, InCategoryName)| >= 2
      ensures r.Ok? ==>
        && categories == TransferCategories(old(categories), old(nextCategoryId), user)
        && Matching(categories, user, EX, OutCategoryName) == [r.value.0]
        && Matching(categories, user, IN, InCategoryName) == [r.value.1]
      ensures transactions == old(transactions) && transfers == old(transfers)
      ensures nextTransactionId == old(nextTransactionId) && nextTransferId == old(nextTransferId)
    {
      ghost var cats0, next0 := categories, nextCategoryId;
      var outCat := GetOrCreateCategory(user, EX, OutCategoryName);
      if outCat.Err? {
        return Err(outCat.error);
      }
      assert categories == WithCategory(cats0, next0, user, OutCategoryName, EX);
      WithCategoryOther(cats0, next0, user, OutCategoryName, EX, InCategoryName, IN);
      LookedUpIsOnlyMatch(cats0, next0, user, OutCategoryName, EX, outCat.value.0);
      ghost var cats1, next1 := categories, nextCategoryId;
      assert Matching(cats1, user, IN, InCategoryName) == Matching(cats0, user, IN, InCategoryName);
      assert next1 == next0 + (|cats1| - |cats0|);
      var inCat := GetOrCreateCategory(user, IN, InCategoryName);
      if inCat.Err? {
        return Err(inCat.error);
      }
      assert categories == WithCategory(cats1, next1, user, InCategoryName, IN);
      TransferCategoriesSteps(cats0, next0, user, cats1, next1);
      WithCategoryOther(cats1, next1, user, InCategoryName, IN, OutCategoryName, EX);
      LookedUpIsOnlyMatch(cats1, next1, user, InCategoryName, IN, inCat.value.0);
      r := Ok((outCat.value.0, inCat.value.0));
    }

    /** The two `Transaction.objects.create` calls of a transfer. */
    method CreateLegs(user: UserId, t: Transfer, outCategory: nat, inCategory: nat)
      returns (outTx: Transaction, inTx: Transaction)
      requires Valid()
      modifies this
      ensures Valid()
      ensures outTx == Transaction(old(nextTransactionId), user, EX, outCategory,
                                   t.fromAccount, t.amountFrom, t.date, LegNote(t.note))
      ensures inTx == Transaction(old(nextTransactionId) + 1, user, IN, inCategory,
                                  t.toAccount, InAmount(t), t.date, LegNote(t.note))
      ensures transactions == old(transactions) + [outTx, inTx]
      ensures nextTransactionId == old(nextTransactionId) + 2
      ensures categories == old(categories) && transfers == old(transfers)
      ensures nextCategoryId == old(nextCategoryId) && nextTransferId == old(nextTransferId)
    {
      var note := LegNote(t.note);
      outTx := CreateTransaction(user, EX, outCategory, t.fromAccount, t.amountFrom, t.date, note);
      inTx := CreateTransaction(user, IN, inCategory, t.toAccount, InAmount(t), t.date, note);
    }

    /** `transfer_create` for a transfer `t` the form accepted, as `user`.
        On success the transfer is stored with the next id and linked to two
        new transactions: an expense on the source account for `amount_from`
        and an income on the target account for `amount_to` (or `amount_from`),
        both with the transfer's user, date and note cut to 200 characters,
        each filed under the user's one transfer category of its direction.
        A lookup finding several categories leaves every table as it was. */
    method TransferCreate(user: UserId, t: Transfer) returns (r: Result<Transfer, LedgerError>)
      requires Valid()
      modifies this
      ensures Valid()
      ensures r.Err? <==>
        |Matching(old(categories), user, EX, OutCategoryName)| >= 2
        || |Matching(old(categories), user, IN, InCategoryName)| >= 2
      ensures r.Err? ==>
        && categories == old(categories) && transactions == old(transactions) && transfers == old(transfers)
        && nextCategoryId == old(nextCategoryId) && nextTransactionId == old(nextTransactionId)
        && nextTransferId == old(nextTransferId)
      ensures r.Ok? ==>
        && categories == TransferCategories(old(categories), old(nextCategoryId), user)
        && |Matching(categories, user, EX, OutCategoryName)| == 1
        && |Matching(categories, user, IN, InCategoryName)| == 1
        && r.value == t.(id := old(nextTransferId), user := user,
                         outTx := Some(old(nextTransactionId)), inTx := Some(old(nextTransactionId) + 1))
        && transfers == old(transfers) + [r.value]
        && transactions == old(transactions) + [
             Transaction(old(nextTransactionId), user, EX, Matching(categories, user, EX, OutCategoryName)[0].id,
                         t.fromAccount, t.amountFrom, t.date, LegNote(t.note)),
             Transaction(old(nextTransactionId) + 1, user, IN, Matching(categories, user, IN, InCategoryName)[0].id,
                         t.toAccount, InAmount(t), t.date, LegNote(t.note))]
    {
      var cats0, txs0, trs0 := categories, transactions, transfers;
      var nextCat0, nextTx0, nextTr0 := nextCategoryId, nextTransactionId, nextTransferId;

      // Everything below runs in one database transaction; the transfer is saved first.
      var saved := SaveTransfer(t.(user := user));
      var cats := LookUpTransferCategories(user);
      if cats.Err? {
        Restore(cats0, txs0, trs0, nextCat0, nextTx0, nextTr0);
        return Err(cats.error);
      }
      var outTx, inTx := CreateLegs(user, t, cats.value.0.id, cats.value.1.id);
      // Both legs are attached to the saved transfer.
      var linked := LinkLegs(outTx.id, inTx.id);
      r := Ok(linked);
    }
  }

  /** The category `get_or_create` returns is the only match afterwards. */
  lemma LookedUpIsOnlyMatch(categories: seq<Category>, nextId: nat, user: UserId, name: string, direction: Direction,
                            c: Category)
    requires var m := Matching(categories, user, direction, name);
      && (|m| == 0 ==> c == Category(nextId, user, name, direction))
      && (|m| == 1 ==> c == m[0])
      && |m| <= 1
    ensures Matching(WithCategory(categories, nextId, user, name, direction), user, direction, name) == [c]
  {
    var p := (x: Category) => x.user == user && x.direction == direction && x.name == name;
    if Matching(categories, user, direction, name) == [] {
      FilterAppend(categories, [c], p);
      assert [c][1..] == [];
    }
  }

  /** Two transfers in a row by a user who has at most one of each transfer
      category: both succeed, each adds two transactions, and the second
      adds no category. */
  method TransferTwice(ledger: Ledger, user: UserId, a: Transfer, b: Transfer)
    returns (ra: Result<Transfer, LedgerError>, rb: Result<Transfer, LedgerError>)
    requires ledger.Valid()
    requires |Matching(ledger.categories, user, EX, OutCategoryName)| <= 1
    requires |Matching(ledger.categories, user, IN, InCategoryName)| <= 1
    modifies ledger
    ensures ra.Ok? && rb.Ok?
    ensures |ledger.transactions| == |old(ledger.transactions)| + 4
    ensures ledger.categories == TransferCategories(old(ledger.categories), old(ledger.nextCategoryId), user)
  {
    TransferCategoriesSettle(ledger.categories, ledger.nextCategoryId, user);
    ra := ledger.TransferCreate(user, a);
    rb := ledger.TransferCreate(user, b);
  }
}
