/**
 * The dashboard view: its summary tiles and category cards, all computed with `reduce` over the
 * current list, and its handlers, which update the view's own form and edit-mode fields and call
 * the `App` operations.
 */
module Dashboard {
  import opened Wrappers
  import opened Seqs
  import opened JsText
  import opened Budget
  import BudgetApp

  /** `calculateCategorySpent` (and the detail view's identical `calculateTotal`): the left-to-right `reduce` yields the category's net spending. */
  function CalculateCategorySpent(c: Category): (r: real)
    ensures r == Spent(c)
  {
    FoldLeft(0.0, c.transactions, SignedAmount)
  }

  function AbsCategorySpent(c: Category): real {
    Abs(CalculateCategorySpent(c))
  }

  /** The four summary tiles. */
  datatype Summary = Summary(income: real, totalAllocated: real, unallocated: real, totalSpent: real)

  /** `totalAllocated`, `totalSpent` and `unallocated`, as the view's `reduce` expressions compute them. */
  function SummaryTiles(income: real, cats: seq<Category>): (r: Summary)
    ensures r.income == income
    ensures r.totalAllocated == TotalAllocated(cats)
    ensures r.unallocated == Unallocated(income, cats)
    ensures r.totalSpent == TotalSpent(cats) && r.totalSpent >= 0.0
  {
    var totalAllocated := FoldLeft(0.0, cats, Allocated);
    var totalSpent := FoldLeft(0.0, cats, AbsCategorySpent);
    SumPointwise(cats, AbsCategorySpent, cats, SpentShown);
    TotalSpentNonNegative(cats);
    Summary(income, totalAllocated, income - totalAllocated, totalSpent)
  }

  /**
   * The progress bar's width in percent, `Math.min(Math.abs(spent) / allocated * 100, 100)`.
   * With nothing allocated the division gives `Infinity` (width 100) or, when nothing is spent
   * either, `NaN`, shown here as `None`.
   */
  function ProgressWidth(spent: real, allocation: real): (r: Option<real>)
    ensures r.None? <==> allocation == 0.0 && spent == 0.0
    ensures allocation == 0.0 && spent != 0.0 ==> r == Some(100.0)
    ensures allocation > 0.0 ==> r.Some? && 0.0 <= r.value <= 100.0
    ensures allocation > 0.0 && Abs(spent) <= allocation ==> r == Some(Abs(spent) / allocation * 100.0)
    ensures allocation > 0.0 && Abs(spent) >= allocation ==> r == Some(100.0)
    ensures allocation < 0.0 ==> r.Some? && r.value <= 0.0
  {
    if allocation == 0.0 then
      if spent == 0.0 then None else Some(100.0)
    else
      var percent := Abs(spent) / allocation * 100.0;
      PercentBounds(Abs(spent), allocation);
      Some(if percent < 100.0 then percent else 100.0)
  }

  lemma PercentBounds(used: real, allocation: real)
    requires used >= 0.0 && allocation != 0.0
    ensures allocation > 0.0 ==> used / allocation * 100.0 >= 0.0
    ensures allocation > 0.0 ==> (used / allocation * 100.0 <= 100.0 <==> used <= allocation)
    ensures allocation < 0.0 ==> used / allocation * 100.0 <= 0.0
  {
    var q := used / allocation;
    assert q * allocation == used;
    if allocation > 0.0 {
      assert q >= 0.0;
      assert q <= 1.0 <==> q * allocation <= allocation;
    } else {
      QuotientSign(used, -allocation);
      assert q == -(used / -allocation);
    }
  }

  lemma QuotientSign(a: real, b: real)
    requires a >= 0.0 && b > 0.0
    ensures a / b >= 0.0
  {
    var q := a / b;
    assert q * b == a;
  }

  /** A category card: the edit form for the category being edited, the figures for every other. */
  datatype Card =
    | EditingCard(id: string)
    | ViewingCard(id: string, name: string, allocation: real, spentShown: real, remaining: real,
                  overBudget: bool, width: Option<real>)

  function CardFor(editingId: Option<string>): Category -> Card {
    (c: Category) =>
      var spent := CalculateCategorySpent(c);
      var remaining := c.allocation + spent;
      if editingId == Some(c.id) then EditingCard(c.id)
      else ViewingCard(c.id, c.name, c.allocation, Abs(spent), remaining, remaining < 0.0,
                       ProgressWidth(spent, c.allocation))
  }

  /** The category list as rendered: one card per category, in list order. */
  function RenderCards(cats: seq<Category>, editingId: Option<string>): (r: seq<Card>)
    ensures |r| == |cats|
    ensures forall i :: 0 <= i < |cats| ==> r[i].id == cats[i].id
    ensures forall i :: 0 <= i < |cats| ==> (r[i].EditingCard? <==> editingId == Some(cats[i].id))
    ensures forall i :: 0 <= i < |cats| && r[i].ViewingCard? ==>
      r[i].name == cats[i].name && r[i].allocation == cats[i].allocation &&
      r[i].spentShown == SpentShown(cats[i]) && r[i].remaining == Remaining(cats[i]) &&
      (r[i].overBudget <==> IsOverBudget(cats[i])) &&
      r[i].width == ProgressWidth(Spent(cats[i]), cats[i].allocation)
  {
    Map(cats, CardFor(editingId))
  }

  /** With unique ids at most one card is in edit mode: the one whose id is `editingId`. */
  lemma AtMostOneEditingCard(cats: seq<Category>, editingId: Option<string>, i: int, j: int)
    requires UniqueCategoryIds(cats)
    requires 0 <= i < |cats| && 0 <= j < |cats|
    requires RenderCards(cats, editingId)[i].EditingCard? && RenderCards(cats, editingId)[j].EditingCard?
    ensures i == j
  {
  }

  /** The dashboard's own state: the add-category form and the edit-mode drafts. */
  class DashboardView {
    var newCategoryName: string
    var newCategoryAllocation: string
    var editingId: Option<string>
    var editingName: string
    var editingAllocation: string

    constructor ()
      ensures newCategoryName == "" && newCategoryAllocation == ""
      ensures editingId == None && editingName == "" && editingAllocation == ""
    {
      newCategoryName, newCategoryAllocation := "", "";
      editingId, editingName, editingAllocation := None, "", "";
    }

    /** The income field's `onChange`: `setIncome(parseFloat(value) || 0)`. */
    method HandleIncomeChange(app: BudgetApp.App, raw: string)
      modifies app
      ensures app.income == ParseFloatOrZero(raw) && app.categories == old(app.categories)
    {
      app.SetIncome(ParseFloatOrZero(raw));
    }

    /** `handleAddCategory`: only a name that is not blank adds a category (with a fresh `id`), then both fields clear. */
    method HandleAddCategory(app: BudgetApp.App, id: string)
      modifies this, app
      ensures IsBlank(old(newCategoryName)) ==>
        app.categories == old(app.categories) &&
        newCategoryName == old(newCategoryName) && newCategoryAllocation == old(newCategoryAllocation)
      ensures !IsBlank(old(newCategoryName)) ==>
        app.categories == Budget.AddCategory(old(app.categories), id, old(newCategoryName), old(newCategoryAllocation)) &&
        newCategoryName == "" && newCategoryAllocation == ""
      ensures app.income == old(app.income)
      ensures editingId == old(editingId) && editingName == old(editingName) && editingAllocation == old(editingAllocation)
    {
      if !IsBlank(newCategoryName) {
        app.AddCategory(id, newCategoryName, newCategoryAllocation);
        newCategoryName := "";
        newCategoryAllocation := "";
      }
    }

    /** `handleEditCategory`: edit mode for `c`, with drafts holding its name and its allocation as text. */
    method HandleEditCategory(c: Category)
      modifies this
      ensures editingId == Some(c.id) && editingName == c.name && editingAllocation == NumberToString(c.allocation)
      ensures newCategoryName == old(newCategoryName) && newCategoryAllocation == old(newCategoryAllocation)
    {
      editingId := Some(c.id);
      editingName := c.name;
      editingAllocation := NumberToString(c.allocation);
    }

    /** `handleSaveEdit`: a name that is not blank is committed (rename, then re-allocate) and edit mode ends. */
    method HandleSaveEdit(app: BudgetApp.App)
      modifies this, app
      ensures IsBlank(old(editingName)) ==>
        app.categories == old(app.categories) && editingId == old(editingId)
      ensures !IsBlank(old(editingName)) ==>
        editingId == None &&
        app.categories == match old(editingId)
          case Some(id) => CommitEdit(old(app.categories), id, old(editingName), old(editingAllocation))
          case None => old(app.categories)
      ensures app.income == old(app.income)
      ensures editingName == old(editingName) && editingAllocation == old(editingAllocation)
      ensures newCategoryName == old(newCategoryName) && newCategoryAllocation == old(newCategoryAllocation)
    {
      if !IsBlank(editingName) {
        if editingId.Some? {
          app.RenameCategory(editingId.value, editingName);
          app.UpdateCategoryAllocation(editingId.value, editingAllocation);
        }
        editingId := None;
      }
    }

    /** `handleCancelEdit`: edit mode ends and both drafts clear, whatever they held. */
    method HandleCancelEdit()
      modifies this
      ensures editingId == None && editingName == "" && editingAllocation == ""
      ensures newCategoryName == old(newCategoryName) && newCategoryAllocation == old(newCategoryAllocation)
    {
      editingId, editingName, editingAllocation := None, "", "";
    }
  }
}
