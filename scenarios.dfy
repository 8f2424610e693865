/** Worked examples of the budget's arithmetic, stated on the model. */
module Scenarios {
  import Seqs
  import opened JsText
  import opened Budget
  import Dashboard

  /** Income 3000 and a "Groceries" category added with "400": 400 allocated, 2600 unallocated. */
  lemma AddFirstCategory()
    ensures var cats := AddCategory([], "1", "Groceries", "400");
      var tiles := Dashboard.SummaryTiles(3000.0, cats);
      tiles.totalAllocated == 400.0 && tiles.unallocated == 2600.0 && tiles.totalSpent == 0.0
  {
    assert NumberToString(400.0) == "400" by {
      assert NatToString(400) == "400";
    }
    NumberToStringRoundTrip(400.0);
  }

  /** A debit of 50, then a further debit of 400, against an allocation of 400. */
  lemma DebitsAgainstGroceries()
    ensures var c := Category("1", "Groceries", 400.0, [Transaction("2", Debit, 50.0, "Expense", "")]);
      Spent(c) == -50.0 && SpentShown(c) == 50.0 && Remaining(c) == 350.0 && !IsOverBudget(c)
    ensures var c := Category("1", "Groceries", 400.0, [Transaction("2", Debit, 50.0, "Expense", ""),
                                                        Transaction("3", Debit, 400.0, "Expense", "")]);
      Spent(c) == -450.0 && Remaining(c) == -50.0 && IsOverBudget(c)
  {
  }

  /** A credit of 20 after a debit of 50 nets to 30 spent. */
  lemma CreditAfterDebit()
    ensures var c := Category("1", "Groceries", 400.0, [Transaction("2", Debit, 50.0, "Expense", ""),
                                                        Transaction("3", Credit, 20.0, "Income", "")]);
      Spent(c) == -30.0 && SpentShown(c) == 30.0
  {
    var debit := Transaction("2", Debit, 50.0, "Expense", "");
    var txs := [debit, Transaction("3", Credit, 20.0, "Income", "")];
    assert txs[..1] == [debit];
    assert [debit][..0] == [];
    assert Seqs.Sum([debit], SignedAmount) == -50.0;
    assert Seqs.Sum(txs, SignedAmount) == -30.0;
  }
}
