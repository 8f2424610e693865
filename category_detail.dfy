/**
 * The category detail view: the category the route names (or the not-found state), its
 * summary and progress, the transaction list newest first, the transaction entry form and the
 * header's edit mode.
 */
module CategoryDetail {
  import opened Wrappers
  import opened Seqs
  import opened JsText
  import opened Budget
  import BudgetApp
  import Dashboard

  /** Position `k` holds the first category with the id. */
  predicate FirstWithId(cats: seq<Category>, id: string, k: int) {
    0 <= k < |cats| && cats[k].id == id && forall j :: 0 <= j < k ==> cats[j].id != id
  }

  /** `categories.find(cat => cat.id === id)`. */
  function FindCategory(cats: seq<Category>, id: string): (r: Option<Category>)
    ensures r.Some? ==> r.value in cats && r.value.id == id
    ensures r.Some? ==> exists k :: FirstWithId(cats, id, k) && cats[k] == r.value
    ensures r.None? <==> IsFreshCategoryId(cats, id)
  {
    if cats == [] then None
    else if cats[0].id == id then assert FirstWithId(cats, id, 0); Some(cats[0])
    else
      var r := FindCategory(cats[1..], id);
      if r.Some? then
        var k :| FirstWithId(cats[1..], id, k) && cats[1..][k] == r.value;
        assert FirstWithId(cats, id, k + 1);
        r
      else r
  }

  /** The category found is the first one with the id. */
  lemma {:induction false} FindCategoryIsFirst(cats: seq<Category>, id: string, k: int)
    requires 0 <= k < |cats| && cats[k].id == id
    requires forall j :: 0 <= j < k ==> cats[j].id != id
    ensures FindCategory(cats, id) == Some(cats[k])
  {
    if k > 0 {
      FindCategoryIsFirst(cats[1..], id, k - 1);
    }
  }

  /** After its category is deleted, the detail route finds nothing. */
  lemma DeletedCategoryNotFound(cats: seq<Category>, id: string)
    ensures FindCategory(DeleteCategory(cats, id), id) == None
  {
  }

  /** The sign shown before a transaction's amount. */
  function AmountSign(t: Transaction): (r: char)
    ensures r == '-' || r == '+'
  {
    if t.kind == Debit then '-' else '+'
  }

  /** The sign shown and the stored amount together give the transaction's effect on the net spending. */
  lemma DisplayedSignMatchesSpent(t: Transaction)
    ensures SignedAmount(t) == if AmountSign(t) == '-' then -t.amount else t.amount
  {
  }

  /** What the view renders. */
  datatype DetailPage =
    | NotFound
    | Detail(category: Category, spentShown: real, remaining: real, overBudget: bool,
             width: Option<real>, rows: seq<Transaction>)

  function RenderDetail(cats: seq<Category>, routeId: string): (r: DetailPage)
    ensures r.NotFound? <==> IsFreshCategoryId(cats, routeId)
    ensures r.Detail? ==>
      FindCategory(cats, routeId) == Some(r.category) &&
      (exists k :: FirstWithId(cats, routeId, k) && cats[k] == r.category) &&
      r.spentShown == SpentShown(r.category) && r.remaining == Remaining(r.category) &&
      (r.overBudget <==> IsOverBudget(r.category)) &&
      r.width == Dashboard.ProgressWidth(Spent(r.category), r.category.allocation)
    ensures r.Detail? ==>
      |r.rows| == |r.category.transactions| &&
      forall i :: 0 <= i < |r.rows| ==> r.rows[i] == r.category.transactions[|r.rows| - 1 - i]
  {
    match FindCategory(cats, routeId)
    case None => NotFound
    case Some(c) =>
      var total := Dashboard.CalculateCategorySpent(c);  // `calculateTotal` is the same reduce
      var remaining := c.allocation + total;
      Detail(c, Abs(total), remaining, remaining < 0.0, Dashboard.ProgressWidth(total, c.allocation),
             Reverse(c.transactions))
  }

  /** Both views agree on a category's figures: the detail page shows what the category's card shows. */
  lemma DetailAgreesWithCard(cats: seq<Category>, k: int)
    requires UniqueCategoryIds(cats) && 0 <= k < |cats|
    ensures var page := RenderDetail(cats, cats[k].id);
      var card := Dashboard.RenderCards(cats, None)[k];
      page.Detail? && card.ViewingCard? && page.category == cats[k] &&
      page.spentShown == card.spentShown && page.remaining == card.remaining &&
      page.overBudget == card.overBudget && page.width == card.width
  {
    FindCategoryIsFirst(cats, cats[k].id, k);
  }

  /** The transaction just added is the first row of its category's list. */
  lemma NewestTransactionFirst(cats: seq<Category>, k: int, draft: TransactionDraft, id: string)
    requires UniqueCategoryIds(cats) && 0 <= k < |cats|
    ensures var page := RenderDetail(AddTransaction(cats, cats[k].id, draft, id), cats[k].id);
      page.Detail? && page.rows[0] == Stamp(draft, id)
  {
    var r := AddTransaction(cats, cats[k].id, draft, id);
    assert forall j :: 0 <= j < k ==> r[j].id == cats[j].id;
    FindCategoryIsFirst(r, cats[k].id, k);
  }

  /** The entry form's guard: `amount && parseFloat(amount) > 0`, giving the amount to store. */
  function AcceptedAmount(raw: string): (r: Option<real>)
    ensures r.Some? <==> ParseFloat(raw).Some? && ParseFloat(raw).value > 0.0
    ensures r.Some? ==> r.value == ParseFloat(raw).value
  {
    var parsed := ParseFloat(raw);
    assert raw == "" ==> parsed == None;
    if raw != "" && parsed.Some? && parsed.value > 0.0 then Some(parsed.value) else None
  }

  /** The description stored: the one typed, or "Expense"/"Income" by type when none was typed. */
  function DescriptionOrDefault(description: string, kind: TransactionType): (r: string)
    ensures r != ""
    ensures description != "" ==> r == description
    ensures description == "" ==> r == (if kind == Debit then "Expense" else "Income")
  {
    if description != "" then description else if kind == Debit then "Expense" else "Income"
  }

  /** The detail view's own state: the entry form and the header's edit mode, for the category `routeId`. */
  class DetailView {
    const routeId: string
    var transactionType: TransactionType
    var transactionAmount: string
    var transactionDescription: string
    var editingCategory: bool
    var editName: string
    var editAllocation: string

    constructor (routeId: string)
      ensures this.routeId == routeId
      ensures transactionType == Debit && transactionAmount == "" && transactionDescription == ""
      ensures !editingCategory && editName == "" && editAllocation == ""
    {
      this.routeId := routeId;
      transactionType, transactionAmount, transactionDescription := Debit, "", "";
      editingCategory, editName, editAllocation := false, "", "";
    }

    /**
     * `handleAddTransaction`: an accepted amount adds a transaction (fresh `id`, creation `date`)
     * to the route's category and clears the amount and description; anything else changes nothing.
     */
    method HandleAddTransaction(app: BudgetApp.App, id: string, date: string)
      modifies this, app
      ensures AcceptedAmount(old(transactionAmount)).None? ==>
        app.categories == old(app.categories) &&
        transactionAmount == old(transactionAmount) && transactionDescription == old(transactionDescription)
      ensures AcceptedAmount(old(transactionAmount)).Some? ==>
        var draft := TransactionDraft(old(transactionType), AcceptedAmount(old(transactionAmount)).value,
                                      DescriptionOrDefault(old(transactionDescription), old(transactionType)), date);
        app.categories == Budget.AddTransaction(old(app.categories), routeId, draft, id) &&
        transactionAmount == "" && transactionDescription == ""
      ensures app.income == old(app.income) && transactionType == old(transactionType)
      ensures editingCategory == old(editingCategory) && editName == old(editName) && editAllocation == old(editAllocation)
    {
      var amount := AcceptedAmount(transactionAmount);
      if amount.Some? {
        var draft := TransactionDraft(transactionType, amount.value,
                                      DescriptionOrDefault(transactionDescription, transactionType), date);
        app.AddTransaction(routeId, draft, id);
        transactionAmount := "";
        transactionDescription := "";
      }
    }

    /** `handleEditCategory`: edit mode, with drafts holding the category's name and its allocation as text. */
    method HandleEditCategory(app: BudgetApp.App)
      requires FindCategory(app.categories, routeId).Some?
      modifies this
      ensures var c := FindCategory(app.categories, routeId).value;
        editingCategory && editName == c.name && editAllocation == NumberToString(c.allocation)
      ensures transactionType == old(transactionType) && transactionAmount == old(transactionAmount)
      ensures transactionDescription == old(transactionDescription)
    {
      var c := FindCategory(app.categories, routeId).value;
      editingCategory := true;
      editName := c.name;
      editAllocation := NumberToString(c.allocation);
    }

    /** `handleSaveCategory`: a name that is not blank is committed (rename, then re-allocate) and edit mode ends. */
    method HandleSaveCategory(app: BudgetApp.App)
      modifies this, app
      ensures IsBlank(old(editName)) ==>
        app.categories == old(app.categories) && editingCategory == old(editingCategory)
      ensures !IsBlank(old(editName)) ==>
        app.categories == CommitEdit(old(app.categories), routeId, old(editName), old(editAllocation)) &&
        !editingCategory
      ensures app.income == old(app.income)
      ensures editName == old(editName) && editAllocation == old(editAllocation)
      ensures transactionType == old(transactionType) && transactionAmount == old(transactionAmount)
      ensures transactionDescription == old(transactionDescription)
    {
      if !IsBlank(editName) {
        app.RenameCategory(routeId, editName);
        app.UpdateCategoryAllocation(routeId, editAllocation);
        editingCategory := false;
      }
    }

    /** `handleCancelEdit`: edit mode ends and both drafts clear. */
    method HandleCancelEdit()
      modifies this
      ensures !editingCategory && editName == "" && editAllocation == ""
      ensures transactionType == old(transactionType) && transactionAmount == old(transactionAmount)
      ensures transactionDescription == old(transactionDescription)
    {
      editingCategory, editName, editAllocation := false, "", "";
    }
  }
}
