/**
 * The budget's data model and its category/transaction state logic: the list transforms that
 * App.js hands to the views (each builds a new category list; a missing id is a silent no-op),
 * and the derived values every view shows, defined once here as the reference the views'
 * own `reduce` expressions are proved against.
 */
module Budget {
  import opened Seqs
  import opened JsText

  datatype TransactionType = Debit | Credit

  /** A stored transaction: the entry form's fields plus the id App.js assigns. */
  datatype Transaction = Transaction(id: string, kind: TransactionType, amount: real, description: string, date: string)

  /** The object the detail view passes to `addTransaction` (everything but the id). */
  datatype TransactionDraft = TransactionDraft(kind: TransactionType, amount: real, description: string, date: string)

  datatype Category = Category(id: string, name: string, allocation: real, transactions: seq<Transaction>)

  // ---- Derived values (computed, never stored) ----

  /** A transaction's effect on what is left: a debit takes its amount away, a credit adds it. */
  function SignedAmount(t: Transaction): real {
    if t.kind == Debit then -t.amount else t.amount
  }

  /** Net signed spending of a category. */
  function Spent(c: Category): real {
    Sum(c.transactions, SignedAmount)
  }

  /** What is left of the allocation: all of it before any transaction, less as debits come in. */
  function Remaining(c: Category): (r: real)
    ensures c.transactions == [] ==> r == c.allocation
    ensures Spent(c) <= 0.0 <==> r <= c.allocation
  {
    c.allocation + Spent(c)
  }

  /** Over budget: the net outflow of the category exceeds its allocation. */
  predicate IsOverBudget(c: Category): (b: bool)
    ensures b <==> -Spent(c) > c.allocation
  {
    Remaining(c) < 0.0
  }

  function Abs(x: real): real {
    if x < 0.0 then -x else x
  }

  function Allocated(c: Category): real {
    c.allocation
  }

  /** How much a category shows as spent: the size of its net spending. */
  function SpentShown(c: Category): real {
    Abs(Spent(c))
  }

  function TotalAllocated(cats: seq<Category>): real {
    Sum(cats, Allocated)
  }

  function TotalSpent(cats: seq<Category>): real {
    Sum(cats, SpentShown)
  }

  function Unallocated(income: real, cats: seq<Category>): real {
    income - TotalAllocated(cats)
  }

  /** Appending a transaction moves the category's net spending by exactly its signed amount. */
  lemma SpentAppend(txs: seq<Transaction>, t: Transaction)
    ensures Sum(txs + [t], SignedAmount) == Sum(txs, SignedAmount) + SignedAmount(t)
  {
    assert (txs + [t])[..|txs|] == txs;
  }

  /** The total shown as spent is never negative. */
  lemma TotalSpentNonNegative(cats: seq<Category>)
    ensures TotalSpent(cats) >= 0.0
  {
    SumNonNegative(cats, SpentShown);
  }

  // ---- Identity ----

  predicate IsFreshCategoryId(cats: seq<Category>, id: string) {
    forall i :: 0 <= i < |cats| ==> cats[i].id != id
  }

  predicate UniqueCategoryIds(cats: seq<Category>) {
    forall i, j :: 0 <= i < j < |cats| ==> cats[i].id != cats[j].id
  }

  predicate IsFreshTransactionId(txs: seq<Transaction>, id: string) {
    forall i :: 0 <= i < |txs| ==> txs[i].id != id
  }

  predicate UniqueTransactionIds(txs: seq<Transaction>) {
    forall i, j :: 0 <= i < j < |txs| ==> txs[i].id != txs[j].id
  }

  /** `id` is not yet used by any transaction of a category with id `categoryId`. */
  predicate IsFreshTransactionIdFor(cats: seq<Category>, categoryId: string, id: string) {
    forall i :: 0 <= i < |cats| && cats[i].id == categoryId ==> IsFreshTransactionId(cats[i].transactions, id)
  }

  /** The identity invariant: category ids are unique, and so are transaction ids within each category. */
  predicate WellFormed(cats: seq<Category>) {
    UniqueCategoryIds(cats) && forall i :: 0 <= i < |cats| ==> UniqueTransactionIds(cats[i].transactions)
  }

  // ---- The list transforms of App.js ----

  /** `addCategory`: a new category with an empty transaction list goes to the end. */
  function AddCategory(cats: seq<Category>, id: string, name: string, rawAllocation: string): (r: seq<Category>)
    ensures |r| == |cats| + 1 && r[..|cats|] == cats
    ensures r[|cats|].id == id && r[|cats|].name == name && r[|cats|].transactions == []
    ensures r[|cats|].allocation == (if ParseFloat(rawAllocation).Some? then ParseFloat(rawAllocation).value else 0.0)
  {
    cats + [Category(id, name, ParseFloatOrZero(rawAllocation), [])]
  }

  function KeepsCategoryOtherThan(id: string): Category -> bool {
    (c: Category) => c.id != id
  }

  /** `deleteCategory`: the categories whose id differs, in their original order. */
  function DeleteCategory(cats: seq<Category>, id: string): (r: seq<Category>)
    ensures |r| <= |cats| && IsFreshCategoryId(r, id)
    ensures IsFreshCategoryId(cats, id) ==> r == cats
  {
    Filter(cats, KeepsCategoryOtherThan(id))
  }

  function Renamed(id: string, newName: string): Category -> Category {
    (c: Category) => if c.id == id then c.(name := newName) else c
  }

  /** `renameCategory`: only the name of the matching category changes. */
  function RenameCategory(cats: seq<Category>, id: string, newName: string): (r: seq<Category>)
    ensures |r| == |cats|
    ensures forall i :: 0 <= i < |cats| ==>
      r[i].id == cats[i].id && r[i].allocation == cats[i].allocation &&
      r[i].transactions == cats[i].transactions &&
      r[i].name == (if cats[i].id == id then newName else cats[i].name)
  {
    Map(cats, Renamed(id, newName))
  }

  function Reallocated(id: string, amount: real): Category -> Category {
    (c: Category) => if c.id == id then c.(allocation := amount) else c
  }

  /** `updateCategoryAllocation`: only the allocation of the matching category changes, to `parseFloat(raw) || 0`. */
  function UpdateCategoryAllocation(cats: seq<Category>, id: string, rawAllocation: string): (r: seq<Category>)
    ensures |r| == |cats|
    ensures forall i :: 0 <= i < |cats| ==>
      r[i].id == cats[i].id && r[i].name == cats[i].name &&
      r[i].transactions == cats[i].transactions &&
      r[i].allocation == (if cats[i].id != id then cats[i].allocation
                         else if ParseFloat(rawAllocation).Some? then ParseFloat(rawAllocation).value
                         else 0.0)
  {
    Map(cats, Reallocated(id, ParseFloatOrZero(rawAllocation)))
  }

  function WithTransaction(categoryId: string, t: Transaction): Category -> Category {
    (c: Category) => if c.id == categoryId then c.(transactions := c.transactions + [t]) else c
  }

  /** The stored form of a draft: the draft's fields with the assigned id. */
  function Stamp(draft: TransactionDraft, id: string): Transaction {
    Transaction(id, draft.kind, draft.amount, draft.description, draft.date)
  }

  /** `addTransaction`: the draft, with its assigned id, goes to the end of the matching category's list. */
  function AddTransaction(cats: seq<Category>, categoryId: string, draft: TransactionDraft, id: string): (r: seq<Category>)
    ensures |r| == |cats|
    ensures forall i :: 0 <= i < |cats| ==>
      r[i] == if cats[i].id == categoryId
              then cats[i].(transactions := cats[i].transactions +
                     [Transaction(id, draft.kind, draft.amount, draft.description, draft.date)])
              else cats[i]
  {
    Map(cats, WithTransaction(categoryId, Stamp(draft, id)))
  }

  function KeepsTransactionOtherThan(id: string): Transaction -> bool {
    (t: Transaction) => t.id != id
  }

  function WithoutTransaction(categoryId: string, transactionId: string): Category -> Category {
    (c: Category) => if c.id == categoryId then c.(transactions := Filter(c.transactions, KeepsTransactionOtherThan(transactionId))) else c
  }

  /** `deleteTransaction`: every transaction with the id leaves the matching category; nothing else changes. */
  function DeleteTransaction(cats: seq<Category>, categoryId: string, transactionId: string): (r: seq<Category>)
    ensures |r| == |cats|
    ensures forall i :: 0 <= i < |cats| ==>
      r[i].id == cats[i].id && r[i].name == cats[i].name && r[i].allocation == cats[i].allocation &&
      |r[i].transactions| <= |cats[i].transactions|
    ensures forall i :: 0 <= i < |cats| && cats[i].id == categoryId ==>
      IsFreshTransactionId(r[i].transactions, transactionId)
    ensures forall i :: 0 <= i < |cats| && (cats[i].id != categoryId || IsFreshTransactionId(cats[i].transactions, transactionId)) ==>
      r[i] == cats[i]
  {
    Map(cats, WithoutTransaction(categoryId, transactionId))
  }

  // ---- Properties of the transforms ----

  /** A category survives `deleteCategory` exactly when it was there and has another id. */
  lemma DeleteCategoryMembership(cats: seq<Category>, id: string, c: Category)
    ensures c in DeleteCategory(cats, id) <==> c in cats && c.id != id
  {
    FilterMembership(cats, KeepsCategoryOtherThan(id), c);
  }

  /** Deleting a category a second time changes nothing. */
  lemma DeleteCategoryIdempotent(cats: seq<Category>, id: string)
    ensures DeleteCategory(DeleteCategory(cats, id), id) == DeleteCategory(cats, id)
  {
  }

  /** `deleteCategory` keeps the survivors in their original order: it distributes over concatenation. */
  lemma DeleteCategoryKeepsOrder(front: seq<Category>, back: seq<Category>, id: string)
    ensures DeleteCategory(front + back, id) == DeleteCategory(front, id) + DeleteCategory(back, id)
  {
    FilterAppend(front, back, KeepsCategoryOtherThan(id));
  }

  /** With unique ids, deleting a present category removes that one category and closes the gap. */
  lemma DeleteCategoryRemovesOne(cats: seq<Category>, k: int)
    requires UniqueCategoryIds(cats) && 0 <= k < |cats|
    ensures DeleteCategory(cats, cats[k].id) == cats[..k] + cats[k + 1..]
  {
    FilterRemovesOne(cats, k, KeepsCategoryOtherThan(cats[k].id));
  }

  /** With unique ids in a category, deleting a present transaction removes just that one. */
  lemma DeleteTransactionRemovesOne(cats: seq<Category>, k: int, j: int)
    requires 0 <= k < |cats| && 0 <= j < |cats[k].transactions|
    requires UniqueTransactionIds(cats[k].transactions)
    ensures var txs := cats[k].transactions;
      DeleteTransaction(cats, cats[k].id, txs[j].id)[k].transactions == txs[..j] + txs[j + 1..]
  {
    var txs := cats[k].transactions;
    FilterRemovesOne(txs, j, KeepsTransactionOtherThan(txs[j].id));
  }

  /** A transaction stays in the category exactly when it was there and has another id (ids need not be unique). */
  lemma DeleteTransactionMembership(cats: seq<Category>, k: int, transactionId: string, t: Transaction)
    requires 0 <= k < |cats|
    ensures t in DeleteTransaction(cats, cats[k].id, transactionId)[k].transactions <==>
      t in cats[k].transactions && t.id != transactionId
  {
    FilterMembership(cats[k].transactions, KeepsTransactionOtherThan(transactionId), t);
  }

  /**
   * The surviving transactions keep their order: deleting from a category whose list is `front + back`
   * gives what deleting from `front` alone and from `back` alone give, one after the other.
   */
  lemma DeleteTransactionKeepsOrder(cats: seq<Category>, k: int, transactionId: string,
                                    front: seq<Transaction>, back: seq<Transaction>)
    requires 0 <= k < |cats| && cats[k].transactions == front + back
    ensures var c := cats[k];
      DeleteTransaction(cats, c.id, transactionId)[k].transactions ==
        DeleteTransaction([c.(transactions := front)], c.id, transactionId)[0].transactions +
        DeleteTransaction([c.(transactions := back)], c.id, transactionId)[0].transactions
  {
    FilterAppend(front, back, KeepsTransactionOtherThan(transactionId));
  }

  /** Deleting a transaction a second time changes nothing. */
  lemma DeleteTransactionIdempotent(cats: seq<Category>, categoryId: string, transactionId: string)
    ensures var once := DeleteTransaction(cats, categoryId, transactionId);
      DeleteTransaction(once, categoryId, transactionId) == once
  {
  }

  // ---- Uniqueness of ids is preserved ----

  lemma AddCategoryPreservesWellFormed(cats: seq<Category>, id: string, name: string, rawAllocation: string)
    requires WellFormed(cats) && IsFreshCategoryId(cats, id)
    ensures WellFormed(AddCategory(cats, id, name, rawAllocation))
  {
    var r := AddCategory(cats, id, name, rawAllocation);
    assert forall i :: 0 <= i < |cats| ==> r[i] == cats[i];
    assert r[|cats|].transactions == [];
  }

  /** A list with one element taken out keeps unique ids unique. */
  lemma RemovingOneKeepsIdsUnique(cats: seq<Category>, k: int)
    requires WellFormed(cats) && 0 <= k < |cats|
    ensures WellFormed(cats[..k] + cats[k + 1..])
  {
    var r := cats[..k] + cats[k + 1..];
    assert forall i :: 0 <= i < |r| ==> r[i] == cats[if i < k then i else i + 1];
  }

  lemma DeleteCategoryPreservesWellFormed(cats: seq<Category>, id: string)
    requires WellFormed(cats)
    ensures WellFormed(DeleteCategory(cats, id))
  {
    if k :| 0 <= k < |cats| && cats[k].id == id {
      DeleteCategoryRemovesOne(cats, k);
      RemovingOneKeepsIdsUnique(cats, k);
    }
  }

  lemma RenameCategoryPreservesWellFormed(cats: seq<Category>, id: string, newName: string)
    requires WellFormed(cats)
    ensures WellFormed(RenameCategory(cats, id, newName))
  {
  }

  lemma UpdateCategoryAllocationPreservesWellFormed(cats: seq<Category>, id: string, rawAllocation: string)
    requires WellFormed(cats)
    ensures WellFormed(UpdateCategoryAllocation(cats, id, rawAllocation))
  {
  }

  lemma AddTransactionPreservesWellFormed(cats: seq<Category>, categoryId: string, draft: TransactionDraft, id: string)
    requires WellFormed(cats)
    requires IsFreshTransactionIdFor(cats, categoryId, id)
    ensures WellFormed(AddTransaction(cats, categoryId, draft, id))
  {
    var r := AddTransaction(cats, categoryId, draft, id);
    forall k | 0 <= k < |r| ensures UniqueTransactionIds(r[k].transactions) {
      var txs := cats[k].transactions;
      if cats[k].id == categoryId {
        assert forall i :: 0 <= i < |txs| ==> r[k].transactions[i] == txs[i];
      }
    }
  }

  lemma DeleteTransactionPreservesWellFormed(cats: seq<Category>, categoryId: string, transactionId: string)
    requires WellFormed(cats)
    ensures WellFormed(DeleteTransaction(cats, categoryId, transactionId))
  {
    var r := DeleteTransaction(cats, categoryId, transactionId);
    forall k | 0 <= k < |r| ensures UniqueTransactionIds(r[k].transactions) {
      var txs := cats[k].transactions;
      if cats[k].id == categoryId && !IsFreshTransactionId(txs, transactionId) {
        var j :| 0 <= j < |txs| && txs[j].id == transactionId;
        DeleteTransactionRemovesOne(cats, k, j);
        var rest := txs[..j] + txs[j + 1..];
        assert forall i :: 0 <= i < |rest| ==> rest[i] == txs[if i < j then i else i + 1];
      }
    }
  }

  // ---- How the transforms move the derived values ----

  /** Adding a category adds its allocation to the total allocated and leaves the total spent alone. */
  lemma AddCategoryTotals(cats: seq<Category>, id: string, name: string, rawAllocation: string)
    ensures var r := AddCategory(cats, id, name, rawAllocation);
      TotalAllocated(r) == TotalAllocated(cats) + r[|cats|].allocation &&
      TotalSpent(r) == TotalSpent(cats)
  {
    var r := AddCategory(cats, id, name, rawAllocation);
    assert r[..|cats|] == cats;
    assert Spent(r[|cats|]) == 0.0;
  }

  /** With unique ids, deleting a category takes its allocation and its spending out of the totals. */
  lemma DeleteCategoryTotals(cats: seq<Category>, k: int)
    requires UniqueCategoryIds(cats) && 0 <= k < |cats|
    ensures var r := DeleteCategory(cats, cats[k].id);
      TotalAllocated(r) == TotalAllocated(cats) - cats[k].allocation &&
      TotalSpent(r) == TotalSpent(cats) - SpentShown(cats[k])
  {
    DeleteCategoryRemovesOne(cats, k);
    assert cats == cats[..k] + [cats[k]] + cats[k + 1..];
    SumAppend(cats[..k] + [cats[k]], cats[k + 1..], Allocated);
    SumAppend(cats[..k], [cats[k]], Allocated);
    SumAppend(cats[..k], cats[k + 1..], Allocated);
    SumAppend(cats[..k] + [cats[k]], cats[k + 1..], SpentShown);
    SumAppend(cats[..k], [cats[k]], SpentShown);
    SumAppend(cats[..k], cats[k + 1..], SpentShown);
    assert [cats[k]][..0] == [];
  }

  /** Renaming never moves a total. */
  lemma RenameCategoryTotals(cats: seq<Category>, id: string, newName: string)
    ensures var r := RenameCategory(cats, id, newName);
      TotalAllocated(r) == TotalAllocated(cats) && TotalSpent(r) == TotalSpent(cats)
  {
    var r := RenameCategory(cats, id, newName);
    SumPointwise(cats, Allocated, r, Allocated);
    SumPointwise(cats, SpentShown, r, SpentShown);
  }

  /** With unique ids, re-allocating one category moves the total allocated by the change and nothing else. */
  lemma UpdateCategoryAllocationTotals(cats: seq<Category>, k: int, rawAllocation: string)
    requires UniqueCategoryIds(cats) && 0 <= k < |cats|
    ensures var r := UpdateCategoryAllocation(cats, cats[k].id, rawAllocation);
      TotalAllocated(r) == TotalAllocated(cats) + (r[k].allocation - cats[k].allocation) &&
      TotalSpent(r) == TotalSpent(cats)
  {
    var r := UpdateCategoryAllocation(cats, cats[k].id, rawAllocation);
    SumUpdateOne(cats, r, k, Allocated);
    SumPointwise(cats, SpentShown, r, SpentShown);
  }

  /** A new transaction moves the matching category's net spending by its signed amount; allocations stay. */
  lemma AddTransactionSpent(cats: seq<Category>, categoryId: string, draft: TransactionDraft, id: string)
    ensures var r := AddTransaction(cats, categoryId, draft, id);
      TotalAllocated(r) == TotalAllocated(cats) &&
      forall i :: 0 <= i < |cats| ==>
        Spent(r[i]) == Spent(cats[i]) + (if cats[i].id == categoryId then SignedAmount(Stamp(draft, id)) else 0.0)
  {
    var r := AddTransaction(cats, categoryId, draft, id);
    SumPointwise(cats, Allocated, r, Allocated);
    forall i | 0 <= i < |cats| && cats[i].id == categoryId
      ensures Spent(r[i]) == Spent(cats[i]) + SignedAmount(Stamp(draft, id))
    {
      SpentAppend(cats[i].transactions, Stamp(draft, id));
    }
  }

  /** With unique transaction ids, deleting one takes its signed amount back out of the net spending. */
  lemma DeleteTransactionSpent(cats: seq<Category>, k: int, j: int)
    requires 0 <= k < |cats| && 0 <= j < |cats[k].transactions|
    requires UniqueTransactionIds(cats[k].transactions)
    ensures var txs := cats[k].transactions;
      Spent(DeleteTransaction(cats, cats[k].id, txs[j].id)[k]) == Spent(cats[k]) - SignedAmount(txs[j])
  {
    var txs := cats[k].transactions;
    DeleteTransactionRemovesOne(cats, k, j);
    assert txs == txs[..j] + [txs[j]] + txs[j + 1..];
    SumAppend(txs[..j] + [txs[j]], txs[j + 1..], SignedAmount);
    SumAppend(txs[..j], [txs[j]], SignedAmount);
    SumAppend(txs[..j], txs[j + 1..], SignedAmount);
    assert [txs[j]][..0] == [];
  }

  // ---- Committing an edit: rename, then re-allocate ----

  /** Saving an edit: `renameCategory` and then `updateCategoryAllocation`, each applied to the list the other left. */
  function CommitEdit(cats: seq<Category>, id: string, newName: string, rawAllocation: string): (r: seq<Category>)
    ensures |r| == |cats|
    ensures forall i :: 0 <= i < |cats| ==>
      r[i] == if cats[i].id == id
              then cats[i].(name := newName, allocation := ParseFloatOrZero(rawAllocation))
              else cats[i]
  {
    UpdateCategoryAllocation(RenameCategory(cats, id, newName), id, rawAllocation)
  }

  /**
   * Saving an edit as the views' handlers do it: both callbacks map the same captured `categories`
   * and each replaces the whole list, so the list the second one built is the one that stays.
   */
  function CommitEditAsWritten(cats: seq<Category>, id: string, newName: string, rawAllocation: string): (r: seq<Category>)
    ensures |r| == |cats|
    ensures forall i :: 0 <= i < |cats| ==>
      r[i] == if cats[i].id == id then cats[i].(allocation := ParseFloatOrZero(rawAllocation)) else cats[i]
    ensures forall i :: 0 <= i < |cats| ==> r[i].name == cats[i].name
  {
    var renamed := RenameCategory(cats, id, newName);
    var reallocated := UpdateCategoryAllocation(cats, id, rawAllocation);
    reallocated
  }

  /** The handlers as written lose the new name: a rename from "Food" to "Groceries" leaves "Food". */
  lemma CommitEditAsWrittenLosesRename()
    ensures var cats := [Category("1", "Food", 0.0, [])];
      CommitEditAsWritten(cats, "1", "Groceries", "")[0].name == "Food" &&
      CommitEdit(cats, "1", "Groceries", "")[0].name == "Groceries"
  {
  }

  /** Opening the editor and saving without touching it leaves the list as it was (whole-cent allocations). */
  lemma CommitUnchangedEditIsNoOp(cats: seq<Category>, k: int)
    requires UniqueCategoryIds(cats) && 0 <= k < |cats| && IsWholeCents(cats[k].allocation)
    ensures CommitEdit(cats, cats[k].id, cats[k].name, NumberToString(cats[k].allocation)) == cats
  {
    NumberToStringRoundTrip(cats[k].allocation);
  }

  // ---- Amounts entered through the form stay positive ----

  predicate PositiveAmounts(cats: seq<Category>) {
    forall i, j :: 0 <= i < |cats| && 0 <= j < |cats[i].transactions| ==> cats[i].transactions[j].amount > 0.0
  }

  lemma AddTransactionKeepsAmountsPositive(cats: seq<Category>, categoryId: string, draft: TransactionDraft, id: string)
    requires PositiveAmounts(cats) && draft.amount > 0.0
    ensures PositiveAmounts(AddTransaction(cats, categoryId, draft, id))
  {
    var r := AddTransaction(cats, categoryId, draft, id);
    forall i, j | 0 <= i < |r| && 0 <= j < |r[i].transactions| ensures r[i].transactions[j].amount > 0.0 {
      if cats[i].id == categoryId && j < |cats[i].transactions| {
        assert r[i].transactions[j] == cats[i].transactions[j];
      }
    }
  }
}
