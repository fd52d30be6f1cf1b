/** A worked example: three expenses (Food 100 on 2024-01-05, Food 50 on
    2024-01-20, Transport 30 on 2024-02-01) and a Food budget of 120 for January 2024. */
module Scenarios {
  import opened Wrappers
  import opened Calendar
  import opened Schema
  import opened Sequences
  import opened Grouping
  import opened Aggregation
  import opened BudgetList
  import opened BudgetComparisonChart
  import opened Storage

  function Sample(): seq<Expense>
  {
    [ Expense("e1", "u1", "Groceries", 100.0, Food, None, Date(2024, 1, 5), None, Date(2024, 1, 5)),
      Expense("e2", "u1", "Dinner", 50.0, Food, None, Date(2024, 1, 20), None, Date(2024, 1, 20)),
      Expense("e3", "u1", "Bus pass", 30.0, Transport, None, Date(2024, 2, 1), None, Date(2024, 2, 1)) ]
  }

  function JanuaryFood(): Budget
  {
    Budget("b1", "u1", Food, 120.0, Date(2024, 1, 1), Date(2024, 1, 1))
  }

  /** The sample as `getExpenses` lists it for its owner: newest first. */
  function Listing(): seq<Expense>
  {
    [Sample()[2], Sample()[1], Sample()[0]]
  }

  lemma SampleListing()
    ensures SortDesc(Sample(), ExpenseDateKey) == Listing()
  {
    var s := Sample();
    assert s[..1][..0] == [] && s[..2][..1] == s[..1] && s[..3][..2] == s[..2] && s[..3] == s;
    assert SortDesc(s[..1], ExpenseDateKey) == [s[0]];
    assert SortDesc(s[..2], ExpenseDateKey) == [s[1], s[0]];
  }

  /** The category breakdown the summary sends for the listing: Transport 30, then Food 150,
      in the order in which the newest-first listing meets the categories. */
  lemma SampleBreakdown()
    ensures Groups(SortDesc(Sample(), ExpenseDateKey), ExpenseCategory, ExpenseAmount) == [(Transport, 30.0), (Food, 150.0)]
  {
    SampleListing();
    ListingBreakdown();
  }

  lemma ListingBreakdown()
    ensures Groups(Listing(), ExpenseCategory, ExpenseAmount) == [(Transport, 30.0), (Food, 150.0)]
  {
    var s := Listing();
    assert s[..1][..0] == [] && s[..2][..1] == s[..1] && s[..3] == s;
    assert FirstKeys(s[..1], ExpenseCategory) == [Transport];
    assert FirstKeys(s[..2], ExpenseCategory) == [Transport, Food];
    assert FirstKeys(s, ExpenseCategory) == [Transport, Food];
    assert GroupTotal(s[..1], ExpenseCategory, ExpenseAmount, Transport) == 30.0;
    assert GroupTotal(s[..2], ExpenseCategory, ExpenseAmount, Transport) == 30.0;
    assert GroupTotal(s[..1], ExpenseCategory, ExpenseAmount, Food) == 0.0;
    assert GroupTotal(s[..2], ExpenseCategory, ExpenseAmount, Food) == 50.0;
  }

  /** Over the listing: total 180, 60 per expense, top category Food. */
  method SampleAnalytics() returns (a: AnalyticsSummary)
    ensures a == AnalyticsSummary(180.0, 60.0, "Food")
  {
    SampleListing();
    ListingTotal();
    ListingTopCategory();
    a := Analytics(SortDesc(Sample(), ExpenseDateKey));
  }

  lemma ListingTotal()
    ensures Total(Listing()) == 180.0
  {
    var s := Listing();
    assert s[..1][..0] == [] && s[..2][..1] == s[..1] && s[..3] == s;
    assert SumBy(s[..1], ExpenseAmount) == 30.0;
    assert SumBy(s[..2], ExpenseAmount) == 80.0;
  }

  /** Food's 150 beats Transport's 30. */
  lemma ListingTopCategory()
    ensures TopCategory(Groups(Listing(), ExpenseCategory, ExpenseAmount)) == "Food"
  {
    ListingBreakdown();
    var groups := Groups(Listing(), ExpenseCategory, ExpenseAmount);
    assert FirstMaxIndex(groups, EntryTotal) == 1 by {
      assert EntryTotal(groups[0]) < EntryTotal(groups[1]);
    }
  }

  /** January's Food budget is charged 150 and is over by 30; February's Transport bus pass
      is not charged to it. */
  lemma SampleBudgetOver()
    ensures CalculateSpent(JanuaryFood(), Sample()) == 150.0
    ensures Status(150.0, 120.0) == Over(30.0)
  {
    ChartSpentIsCalculateSpent(JanuaryFood(), Sample());
    SampleChartSpent();
  }

  /** The chart's pass charges the two January Food expenses and skips the February bus pass. */
  lemma SampleChartSpent()
    ensures ChartSpent(JanuaryFood(), Sample()) == 150.0
  {
    var s := Sample();
    var b := JanuaryFood();
    assert s[..1][..0] == [] && s[..2][..1] == s[..1] && s[..3][..2] == s[..2] && s[..3] == s;
    assert ChartSpent(b, s[..1]) == 100.0;
    assert ChartSpent(b, s[..2]) == 150.0;
  }
}
