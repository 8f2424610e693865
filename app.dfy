/**
 * The `App` component's state: the income and the category list, each replaced wholesale by
 * its setter. Every category operation assigns the list its pure transform in `Budget` builds.
 */
module BudgetApp {
  import Budget

  class App {
    var income: real
    var categories: seq<Budget.Category>

    /** Initial state: no income, no categories. */
    constructor ()
      ensures income == 0.0 && categories == []
    {
      income := 0.0;
      categories := [];
    }

    /** `setIncome`: replaces the income; the categories stay. */
    method SetIncome(value: real)
      modifies this
      ensures income == value && categories == old(categories)
    {
      income := value;
    }

    method AddCategory(id: string, name: string, rawAllocation: string)
      modifies this
      ensures categories == Budget.AddCategory(old(categories), id, name, rawAllocation)
      ensures income == old(income)
      ensures Budget.WellFormed(old(categories)) && Budget.IsFreshCategoryId(old(categories), id) ==>
        Budget.WellFormed(categories)
    {
      if Budget.WellFormed(categories) && Budget.IsFreshCategoryId(categories, id) {
        Budget.AddCategoryPreservesWellFormed(categories, id, name, rawAllocation);
      }
      categories := Budget.AddCategory(categories, id, name, rawAllocation);
    }

    method DeleteCategory(id: string)
      modifies this
      ensures categories == Budget.DeleteCategory(old(categories), id)
      ensures income == old(income)
      ensures Budget.WellFormed(old(categories)) ==> Budget.WellFormed(categories)
    {
      if Budget.WellFormed(categories) {
        Budget.DeleteCategoryPreservesWellFormed(categories, id);
      }
      categories := Budget.DeleteCategory(categories, id);
    }

    method RenameCategory(id: string, newName: string)
      modifies this
      ensures categories == Budget.RenameCategory(old(categories), id, newName)
      ensures income == old(income)
      ensures Budget.WellFormed(old(categories)) ==> Budget.WellFormed(categories)
    {
      if Budget.WellFormed(categories) {
        Budget.RenameCategoryPreservesWellFormed(categories, id, newName);
      }
      categories := Budget.RenameCategory(categories, id, newName);
    }

    method UpdateCategoryAllocation(id: string, rawAllocation: string)
      modifies this
      ensures categories == Budget.UpdateCategoryAllocation(old(categories), id, rawAllocation)
      ensures income == old(income)
      ensures Budget.WellFormed(old(categories)) ==> Budget.WellFormed(categories)
    {
      if Budget.WellFormed(categories) {
        Budget.UpdateCategoryAllocationPreservesWellFormed(categories, id, rawAllocation);
      }
      categories := Budget.UpdateCategoryAllocation(categories, id, rawAllocation);
    }

    /** `addTransaction`: `id` is the fresh id App.js would take from the clock. */
    method AddTransaction(categoryId: string, draft: Budget.TransactionDraft, id: string)
      modifies this
      ensures categories == Budget.AddTransaction(old(categories), categoryId, draft, id)
      ensures income == old(income)
      ensures Budget.WellFormed(old(categories)) && Budget.IsFreshTransactionIdFor(old(categories), categoryId, id) ==>
        Budget.WellFormed(categories)
    {
      if Budget.WellFormed(categories) && Budget.IsFreshTransactionIdFor(categories, categoryId, id) {
        Budget.AddTransactionPreservesWellFormed(categories, categoryId, draft, id);
      }
      categories := Budget.AddTransaction(categories, categoryId, draft, id);
    }

    method DeleteTransaction(categoryId: string, transactionId: string)
      modifies this
      ensures categories == Budget.DeleteTransaction(old(categories), categoryId, transactionId)
      ensures income == old(income)
      ensures Budget.WellFormed(old(categories)) ==> Budget.WellFormed(categories)
    {
      if Budget.WellFormed(categories) {
        Budget.DeleteTransactionPreservesWellFormed(categories, categoryId, transactionId);
      }
      categories := Budget.DeleteTransaction(categories, categoryId, transactionId);
    }
  }
}
