# Personal budget: a verified model of its state logic

This project models the core of a single-user budgeting web app. The app tracks a monthly income and a list of spending categories. Each category has an allocated amount and an ordered list of debit and credit transactions. The model covers four parts:

- **State logic** (`src/App.js`). Six list transforms over the category list: add, delete, rename and re-allocate a category; add and delete a transaction. Each builds a new list and replaces the state wholesale. A missing id is a silent no-op.
- **Derived values.** Net `spent` per category (a debit subtracts its amount, a credit adds it), `remaining = allocated + spent`, over-budget iff `remaining < 0`, `totalAllocated`, `totalSpent` (a sum of absolute values) and `unallocated = income - totalAllocated`.
- **The two views** (`src/components/Dashboard.js`, `src/components/CategoryDetail.js`). Their input guards (blank names, non-positive amounts, default descriptions), their edit-mode state (`viewing -> editing -> save | cancel -> viewing`), the cards and the detail page they render, the progress width, and the newest-first transaction list.
- **The JavaScript built-ins these depend on.** `trim`, `parseFloat` (always followed by `|| 0` or a `> 0` test) and `Number#toString`, which copies an allocation into an edit field.

Layout, one module per file:

- `wrappers.dfy` (`Wrappers`): `Option`.
- `seqs.dfy` (`Seqs`): `map`, `filter`, `reduce` and `reverse` as functions. `Sum` is the reference total, and the left-to-right `reduce` (`FoldLeft`) is proved equal to it.
- `js_text.dfy` (`JsText`): whitespace, `trim`, `parseFloat`, `parseFloat(x) || 0`, `Number#toString`, and the round trip between the last two.
- `budget.dfy` (`Budget`): the records, the derived values, the six transforms as pure functions, and their properties. These include order, "nothing else changes", idempotence, id uniqueness and how each transform moves the totals.
- `app.dfy` (`BudgetApp`): class `App` with the `income` and `categories` slots. Each method assigns the result of the matching transform.
- `dashboard.dfy` (`Dashboard`): summary tiles, cards, progress width, and class `DashboardView` with the form and edit fields and their handlers.
- `category_detail.dfy` (`CategoryDetail`): lookup by route id, the detail page, the entry-form guard, and class `DetailView` with its handlers.
- `scenarios.dfy` (`Scenarios`): worked examples of the arithmetic.

Amounts are exact `real`s. The category field `allocated` is called `allocation` here because `allocated` is a Dafny keyword. The ids that the source takes from `Date.now()` and the dates it takes from `new Date()` are parameters supplied by the caller.

## Model

| member | source | states |
|---|---|---|
| `Seqs.Map` | src/App.js:44-46 | `map` keeps the length and applies the callback at every position |
| `Seqs.Filter` | src/App.js:40 | `filter` never grows the list, keeps only elements that pass, and returns the list unchanged when every element passes |
| `Seqs.FilterMembership` | src/App.js:40 | an element is in the filtered list iff it was in the list and passes the test |
| `Seqs.FilterAppend` | src/App.js:40 | filtering distributes over concatenation, so survivors keep their relative order |
| `Seqs.FilterIdempotent` | src/App.js:40 | filtering twice with the same test equals filtering once |
| `Seqs.FilterRemovesOne` | src/App.js:66 | when exactly one element fails the test, the result is the list with that element cut out |
| `Seqs.SumAppend` | src/components/Dashboard.js:26-27 | a total over a concatenation is the sum of the two totals |
| `Seqs.SumNonNegative` | src/components/Dashboard.js:27 | a total of non-negative terms is non-negative |
| `Seqs.SumPointwise` | src/components/Dashboard.js:26-27 | lists whose terms agree position by position have equal totals |
| `Seqs.SumUpdateOne` | src/components/Dashboard.js:26 | changing one term changes the total by exactly the difference |
| `Seqs.FoldLeft` | src/components/Dashboard.js:21-23 | the left-to-right `reduce` from `acc` equals `acc` plus the reference total |
| `Seqs.Reverse` | src/components/CategoryDetail.js:177 | the reversed copy has the same length and position `i` holds element `n-1-i` |
| `JsText.TrimStart` | src/components/Dashboard.js:32 | the result is a suffix of the input, everything dropped is whitespace, and it does not start with whitespace |
| `JsText.TrimEnd` | src/components/Dashboard.js:32 | the result is a prefix of the input, everything dropped is whitespace, and it does not end with whitespace |
| `JsText.Trim` | src/components/Dashboard.js:32 | `trim()` returns a slice of the input with only whitespace before and after it, and that slice neither starts nor ends with whitespace |
| `JsText.IsBlank` | src/components/Dashboard.js:46 | the `.trim()` guard fails (the trimmed name is empty) exactly when every character of the name is whitespace |
| `JsText.DigitRun` | src/App.js:33 | the longest run of digits at the front of a string |
| `JsText.ParseUnsigned` | src/App.js:33 | an unsigned literal without any digit reads as NaN (`None`) |
| `JsText.ParseDecimal` | src/App.js:33 | a signed literal without any digit reads as NaN |
| `JsText.ParseFloat` | src/App.js:33 | `parseFloat` of a string that contains no digit is NaN, which `\|\| 0` turns into 0 |
| `JsText.ParseFloatOrZero` | src/App.js:51 | `parseFloat(raw) \|\| 0` is the parsed number when there is one and 0 for NaN, so a string without any digit gives 0 |
| `JsText.ParseFloatSkipsWhitespace` | src/App.js:51 | leading whitespace never changes what `parseFloat` reads |
| `JsText.NatToString` | src/components/Dashboard.js:42 | the decimal rendering of a whole number is a non-empty digit string |
| `JsText.FractionDigits` | src/components/Dashboard.js:42 | the fraction part of `toString` consists of digits only |
| `JsText.NonNegativeToString` | src/components/Dashboard.js:42 | the rendering of a non-negative number is non-empty and starts with a digit |
| `JsText.NumberToString` | src/components/CategoryDetail.js:61 | `allocated.toString()` is non-empty, starts with '-' exactly for a negative number, and otherwise starts with a digit (after the '-', a digit) |
| `JsText.NumberToStringRoundTrip` | src/components/Dashboard.js:42-48 | `parseFloat(x.toString())` gives back `x` for every amount in whole cents |
| `JsText.NonNegativeRoundTrip` | src/components/Dashboard.js:42-48 | the unsigned rendering starts with a digit and reads back exactly |
| `JsText.FractionRoundTrip` | src/components/Dashboard.js:42 | a fraction whose digits run out reads back exactly from those digits |
| `JsText.CentsFractionEnds` | src/components/Dashboard.js:42 | a whole-cents fraction runs out of digits within the digit limit |
| `JsText.WholeValueOfNatToString` | src/components/Dashboard.js:42 | reading back the digits of a whole number gives the number |
| `JsText.DigitRunOfDigits` | src/App.js:33 | the digit run of `digits + rest` is `digits` when `rest` does not start with a digit |
| `Budget.Remaining` | src/components/Dashboard.js:124 | `allocated + spent` is the whole allocation before any transaction, and at most the allocation exactly when the net spent is not positive |
| `Budget.IsOverBudget` | src/components/CategoryDetail.js:41-42 | over budget (`remaining < 0`) exactly when the net outflow exceeds the allocation |
| `Budget.SpentAppend` | src/components/Dashboard.js:20-24 | appending a transaction moves the net spent by exactly its signed amount (minus for a debit, plus for a credit) |
| `Budget.TotalSpentNonNegative` | src/components/Dashboard.js:27 | `totalSpent`, a sum of absolute values, is never negative |
| `Budget.AddCategory` | src/App.js:29-37 | one category is appended at the end, the earlier ones are unchanged and in order, the new one has the given id and name, no transactions, and `allocated` set to the parsed value or 0 when parsing fails |
| `Budget.DeleteCategory` | src/App.js:39-41 | no category with the id remains, the list never grows, and an absent id leaves the list unchanged |
| `Budget.RenameCategory` | src/App.js:43-47 | the length and every id, allocation and transaction list are unchanged; only the names of matching categories become the new name |
| `Budget.UpdateCategoryAllocation` | src/App.js:49-53 | the length and every id, name and transaction list are unchanged; only the allocations of matching categories become `parseFloat(raw) \|\| 0` |
| `Budget.AddTransaction` | src/App.js:55-61 | each matching category gets the transaction, with the assigned id, appended at the end; every other category is unchanged, so nothing changes when none matches |
| `Budget.DeleteTransaction` | src/App.js:63-69 | ids, names and allocations are unchanged; no transaction with the id remains in a matching category; other categories, and categories without that transaction, are unchanged |
| `Budget.DeleteCategoryMembership` | src/App.js:39-41 | a category survives the delete iff it was there and its id differs |
| `Budget.DeleteCategoryIdempotent` | src/App.js:39-41 | deleting the same id twice equals deleting it once |
| `Budget.DeleteCategoryKeepsOrder` | src/App.js:39-41 | deleting distributes over concatenation, so survivors keep their original order |
| `Budget.DeleteCategoryRemovesOne` | src/App.js:39-41 | with unique ids, deleting a present category yields the list with exactly that category cut out |
| `Budget.DeleteTransactionRemovesOne` | src/App.js:63-69 | with unique transaction ids, deleting a present transaction yields the category's list with exactly that one cut out, in order |
| `Budget.DeleteTransactionMembership` | src/App.js:63-69 | for any ids, duplicates included, a transaction stays in the category exactly when it was there and its id differs |
| `Budget.DeleteTransactionKeepsOrder` | src/App.js:63-69 | deleting from a list `front + back` gives what deleting from each part gives, one after the other, so survivors keep their order |
| `Budget.DeleteTransactionIdempotent` | src/App.js:63-69 | a second delete of the same transaction changes nothing |
| `Budget.AddCategoryPreservesWellFormed` | src/App.js:29-37 | with a fresh id, unique category and transaction ids stay unique |
| `Budget.RemovingOneKeepsIdsUnique` | src/App.js:39-41 | cutting one category out of a well-formed list keeps it well formed |
| `Budget.DeleteCategoryPreservesWellFormed` | src/App.js:39-41 | deleting a category keeps ids unique |
| `Budget.RenameCategoryPreservesWellFormed` | src/App.js:43-47 | renaming keeps ids unique |
| `Budget.UpdateCategoryAllocationPreservesWellFormed` | src/App.js:49-53 | re-allocating keeps ids unique |
| `Budget.AddTransactionPreservesWellFormed` | src/App.js:55-61 | with a transaction id fresh in the target category, ids stay unique |
| `Budget.DeleteTransactionPreservesWellFormed` | src/App.js:63-69 | deleting a transaction keeps ids unique |
| `Budget.AddCategoryTotals` | src/components/Dashboard.js:26-27 | adding a category raises `totalAllocated` by its allocation and leaves `totalSpent` unchanged |
| `Budget.DeleteCategoryTotals` | src/components/Dashboard.js:26-27 | with unique ids, deleting a category removes its allocation from `totalAllocated` and its shown spending from `totalSpent` |
| `Budget.RenameCategoryTotals` | src/components/Dashboard.js:26-27 | renaming never moves `totalAllocated` or `totalSpent` |
| `Budget.UpdateCategoryAllocationTotals` | src/components/Dashboard.js:26-27 | with unique ids, re-allocating moves `totalAllocated` by the change and leaves `totalSpent` unchanged |
| `Budget.AddTransactionSpent` | src/components/Dashboard.js:20-24 | a new transaction moves the matching categories' `spent` by its signed amount, leaves every other `spent` unchanged, and leaves `totalAllocated` unchanged |
| `Budget.DeleteTransactionSpent` | src/components/Dashboard.js:20-24 | with unique transaction ids, deleting one removes its signed amount from `spent` |
| `Budget.CommitEdit` | src/components/Dashboard.js:45-51 | renaming and then re-allocating gives each matching category both the new name and the new allocation and leaves every other category unchanged |
| `Budget.CommitEditAsWritten` | src/components/CategoryDetail.js:64-70 | when both updates are computed from the same captured list, each matching category only gets its new allocation, every other category is unchanged, and so no name changes |
| `Budget.CommitEditAsWrittenLosesRename` | src/components/Dashboard.js:45-51 | a concrete edit from "Food" to "Groceries" keeps "Food" as the handlers are written, but gives "Groceries" when the two calls are applied in sequence |
| `Budget.CommitUnchangedEditIsNoOp` | src/components/Dashboard.js:39-51 | opening the editor and saving it untouched leaves the list unchanged, for unique ids and whole-cent allocations |
| `Budget.AddTransactionKeepsAmountsPositive` | src/components/CategoryDetail.js:46-49 | when every stored amount is positive and the new amount is positive, every stored amount stays positive |
| `BudgetApp.App.constructor` | src/App.js:8-9 | the initial state has income 0 and no categories |
| `BudgetApp.App.SetIncome` | src/App.js:8 | the income is replaced and the categories are untouched |
| `BudgetApp.App.AddCategory` | src/App.js:29-37 | the list becomes the `addCategory` transform of the old list, the income is untouched, and well-formedness is kept when the id is fresh |
| `BudgetApp.App.DeleteCategory` | src/App.js:39-41 | the list becomes the `deleteCategory` transform of the old list, and well-formedness is kept |
| `BudgetApp.App.RenameCategory` | src/App.js:43-47 | the list becomes the `renameCategory` transform of the old list, and well-formedness is kept |
| `BudgetApp.App.UpdateCategoryAllocation` | src/App.js:49-53 | the list becomes the `updateCategoryAllocation` transform of the old list, and well-formedness is kept |
| `BudgetApp.App.AddTransaction` | src/App.js:55-61 | the list becomes the `addTransaction` transform of the old list, and well-formedness is kept when the transaction id is fresh |
| `BudgetApp.App.DeleteTransaction` | src/App.js:63-69 | the list becomes the `deleteTransaction` transform of the old list, and well-formedness is kept |
| `Dashboard.CalculateCategorySpent` | src/components/Dashboard.js:20-24 | the view's `reduce` equals the category's net spent; the detail view's `calculateTotal` (src/components/CategoryDetail.js:34-38) is the same code and uses this member |
| `Dashboard.SummaryTiles` | src/components/Dashboard.js:26-28 | the tiles show the income, `totalAllocated` (the sum of allocations), `unallocated = income - totalAllocated`, and `totalSpent`, which is at least 0 |
| `Dashboard.ProgressWidth` | src/components/Dashboard.js:188 | with a positive allocation the width is `min(\|spent\|/allocated*100, 100)`, within [0, 100]; with a zero allocation it is 100, or NaN when nothing is spent; with a negative allocation it is at most 0 |
| `Dashboard.PercentBounds` | src/components/Dashboard.js:188 | with a positive allocation the percentage is at least 0 and at most 100 iff the used amount is within the allocation |
| `Dashboard.RenderCards` | src/components/Dashboard.js:122-127 | one card per category in list order; a card is in edit mode iff its id equals `editingId`; other cards show the allocation, `\|spent\|`, `remaining = allocated + spent`, over-budget iff `remaining < 0`, and the progress width |
| `Dashboard.AtMostOneEditingCard` | src/components/Dashboard.js:127 | with unique ids at most one card is rendered in edit mode |
| `Dashboard.DashboardView.constructor` | src/components/Dashboard.js:14-18 | the form fields and drafts start empty, not in edit mode |
| `Dashboard.DashboardView.HandleIncomeChange` | src/components/Dashboard.js:68 | the income becomes `parseFloat(value) \|\| 0` |
| `Dashboard.DashboardView.HandleAddCategory` | src/components/Dashboard.js:30-37 | a blank name changes nothing; any other name adds the category and clears both fields |
| `Dashboard.DashboardView.HandleEditCategory` | src/components/Dashboard.js:39-43 | enters edit mode for the category, with its name and its allocation as text in the drafts |
| `Dashboard.DashboardView.HandleSaveEdit` | src/components/Dashboard.js:45-51 | a blank draft name changes nothing; otherwise the edit is committed (rename, then re-allocate) and edit mode ends, keeping the drafts |
| `Dashboard.DashboardView.HandleCancelEdit` | src/components/Dashboard.js:53-57 | always leaves edit mode and clears both drafts |
| `CategoryDetail.FindCategory` | src/components/CategoryDetail.js:14 | finds the first category in the list with the route id; it finds none exactly when no category has that id |
| `CategoryDetail.FindCategoryIsFirst` | src/components/CategoryDetail.js:14 | the category found is the first one with the id |
| `CategoryDetail.DeletedCategoryNotFound` | src/components/CategoryDetail.js:23-32 | after a category is deleted, its route finds nothing, so the not-found state is shown |
| `CategoryDetail.AmountSign` | src/components/CategoryDetail.js:187 | the sign shown is '-' or '+' |
| `CategoryDetail.DisplayedSignMatchesSpent` | src/components/CategoryDetail.js:187 | the sign shown, applied to the stored amount, is the transaction's contribution to `spent` |
| `CategoryDetail.RenderDetail` | src/components/CategoryDetail.js:14-42 | the page is not-found iff no category has the route id; otherwise it shows the first category with that id, the one `find` returns, with its `\|spent\|`, `remaining`, over-budget status and progress width, with the transactions in reverse insertion order |
| `CategoryDetail.DetailAgreesWithCard` | src/components/CategoryDetail.js:34-42 | the detail page and the dashboard card for the same category show the same spent, remaining, over-budget status and width |
| `CategoryDetail.NewestTransactionFirst` | src/components/CategoryDetail.js:177 | the transaction just added is the first row of its category's list |
| `CategoryDetail.AcceptedAmount` | src/components/CategoryDetail.js:46 | an amount is accepted exactly when it parses to a value above 0, and that value is stored; the empty string never parses |
| `CategoryDetail.DescriptionOrDefault` | src/components/CategoryDetail.js:50 | a typed description is kept; an empty one becomes "Expense" for a debit and "Income" for a credit; the result is never empty |
| `CategoryDetail.DetailView.constructor` | src/components/CategoryDetail.js:16-21 | starts with type debit, empty fields, not in edit mode |
| `CategoryDetail.DetailView.HandleAddTransaction` | src/components/CategoryDetail.js:44-56 | a rejected amount changes nothing; an accepted one adds the transaction (defaulted description, given date and id) to the route's category and clears amount and description |
| `CategoryDetail.DetailView.HandleEditCategory` | src/components/CategoryDetail.js:58-62 | enters edit mode with the found category's name and allocation text |
| `CategoryDetail.DetailView.HandleSaveCategory` | src/components/CategoryDetail.js:64-70 | a blank draft name changes nothing; otherwise the edit is committed (rename, then re-allocate) and edit mode ends |
| `CategoryDetail.DetailView.HandleCancelEdit` | src/components/CategoryDetail.js:72-76 | always leaves edit mode and clears both drafts |
| `Scenarios.AddFirstCategory` | src/components/Dashboard.js:26-28 | with income 3000, adding "Groceries" with "400" gives 400 allocated, 2600 unallocated and 0 spent |
| `Scenarios.DebitsAgainstGroceries` | src/components/Dashboard.js:123-125 | a debit of 50 against 400 leaves 350 and is not over budget; a further debit of 400 leaves -50 and is over budget |
| `Scenarios.CreditAfterDebit` | src/components/Dashboard.js:20-24 | a credit of 20 after a debit of 50 nets to a shown spent of 30 |

## Left out

- Persistence in `localStorage` and loading on mount (src/App.js:12-27). This is browser I/O. The unguarded `JSON.parse` at src/App.js:17 throws on malformed data, so malformed stored data is not treated as absent.
- JSX rendering, CSS classes and router navigation (`Link`, `navigate`). Only the values the views compute and the order in which they list things are modelled.
- The `onChange` handlers that copy an input's text into a view field, including the transaction-type select. Each is a plain assignment to a public field of `DashboardView` or `DetailView`.
- Clock-derived ids (`Date.now().toString()`) and dates (`new Date().toISOString()`). They are parameters. The source does not guarantee unique ids, so the uniqueness lemmas assume a fresh id.
- IEEE-754 doubles. Amounts are exact reals, so rounding, `-0`, `NaN` arithmetic and overflow are not modelled. `toFixed` formatting and `toLocaleDateString` are display-only and left out.
- `JsText.ParseFloat`: exponent notation and `Infinity` literals are not accepted. A string whose number uses them reads only up to that point.
- `JsText.ParseFloat`: its own contract states only that a string with no digit is NaN. What it reads is stated by `NumberToStringRoundTrip` and `ParseFloatSkipsWhitespace`.
- `JsText.NumberToString`: renders at most 20 fraction digits and never uses exponent notation. JavaScript instead prints the shortest round-tripping double. The round trip is proved only for whole-cent amounts.
- The progress text under the detail bar, `(|total|/allocated*100).toFixed(1)` (src/components/CategoryDetail.js:137). It is an unclamped number formatted as text, and `Infinity` or `NaN` when nothing is allocated. The bar's width uses the same formula as the dashboard's and is modelled by `Dashboard.ProgressWidth`.
- React's scheduling of state updates. The model applies `renameCategory` and then `updateCategoryAllocation` in sequence. The behaviour as written, where both read the same captured list, is modelled separately; see Findings.
- `handleSaveEdit` with no card in edit mode would call the callbacks with the id `null`. No category has that id, so the list is unchanged. The model skips the two calls, which gives the same list.
- `CategoryDetail.DetailView.HandleEditCategory` requires that the route's category exists. In the source this handler is only defined after the not-found return.
- With nothing allocated, the progress width is 100 when something is spent and `NaN` only when nothing is; the model follows the code.
- `deleteTransaction` removes every transaction with the given id, not just one; the model follows the code.

## Findings

| source | as written | input that shows it | evidently intended | confidence | as-written member | corrected member |
|---|---|---|---|---|---|---|
| src/components/Dashboard.js:45-51 | `renameCategory` and `updateCategoryAllocation` each map the `categories` captured at render time and replace the whole list, so the second replacement discards the rename | category `{id: "1", name: "Food"}` edited to name "Groceries" and saved: the name stays "Food" | the category is renamed and re-allocated | high (React state setters called with values, not updater functions); not executed | `Budget.CommitEditAsWritten`, counterexample `Budget.CommitEditAsWrittenLosesRename` | `Budget.CommitEdit` |
| src/components/CategoryDetail.js:64-70 | the same two calls from the detail header's save handler, with the same captured list, so the rename is lost there too | the same category edited from its detail page | the category is renamed and re-allocated | high (same pattern as the row above); not executed | `Budget.CommitEditAsWritten`, counterexample `Budget.CommitEditAsWrittenLosesRename` | `Budget.CommitEdit` |
