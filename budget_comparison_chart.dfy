/** The budget comparison chart (client/src/components/charts/budget-comparison-chart.tsx):
    one bar pair per budget, the budgeted amount beside what was spent against it. The chart
    repeats the budget list's spending rule in its own code; here it keeps its own definition,
    proved equal to the budget list's. */
module BudgetComparisonChart {
  import opened Calendar
  import opened Schema
  import opened Sequences
  import opened Grouping
  import opened BudgetList

  datatype ChartEntry = ChartEntry(category: Category, budget: real, spent: real)

  /** The chart's own pass over the expenses: the amount of every expense with the budget's
      category, month and year, added up left to right. */
  function ChartSpent(b: Budget, es: seq<Expense>): (spent: real)
    ensures (forall e :: e in es ==> !MatchesBudget(e, b)) ==> spent == 0.0
  {
    if es == [] then 0.0
    else
      var e := es[|es| - 1];
      assert e in es && forall x :: x in es[..|es| - 1] ==> x in es;
      ChartSpent(b, es[..|es| - 1])
        + (if e.category == b.category && e.date.month == b.month.month && e.date.year == b.month.year
           then e.amount else 0.0)
  }

  /** The chart and the budget list charge a budget with the same spending. */
  lemma {:induction false} ChartSpentIsCalculateSpent(b: Budget, es: seq<Expense>)
    ensures ChartSpent(b, es) == CalculateSpent(b, es)
  {
    if es != [] {
      var front, e := es[..|es| - 1], es[|es| - 1];
      ChartSpentIsCalculateSpent(b, front);
      if MatchesBudget(e, b) {
        assert Filter(es, MatchesBudget, b) == Filter(front, MatchesBudget, b) + [e];
        SumByAppend(Filter(front, MatchesBudget, b), [e], ExpenseAmount);
        SumBySingleton(e, ExpenseAmount);
      } else {
        assert Filter(es, MatchesBudget, b) == Filter(front, MatchesBudget, b);
      }
    }
  }

  lemma ChartSpentAgrees(budgets: seq<Budget>, es: seq<Expense>)
    ensures forall b :: b in budgets ==> ChartSpent(b, es) == CalculateSpent(b, es)
  {
    forall b | b in budgets
      ensures ChartSpent(b, es) == CalculateSpent(b, es)
    {
      ChartSpentIsCalculateSpent(b, es);
    }
  }

  /** With non-negative amounts, a budget's spending is at most everything spent in its
      category, in every month. */
  lemma {:induction false} ChartSpentAtMostCategoryTotal(b: Budget, es: seq<Expense>)
    requires NonNegativeAmounts(es)
    ensures 0.0 <= ChartSpent(b, es) <= GroupTotal(es, ExpenseCategory, ExpenseAmount, b.category)
  {
    if es != [] {
      assert NonNegativeAmounts(es[..|es| - 1]) by {
        assert forall e :: e in es[..|es| - 1] ==> e in es;
      }
      assert es[|es| - 1] in es;
      ChartSpentAtMostCategoryTotal(b, es[..|es| - 1]);
    }
  }

  /** `budgets.map(budget => ({ category, budget: amount, spent }))`. */
  function ChartData(budgets: seq<Budget>, es: seq<Expense>): (r: seq<ChartEntry>)
    ensures |r| == |budgets|
    ensures forall i :: 0 <= i < |r| ==>
      r[i].category == budgets[i].category && r[i].budget == budgets[i].amount
      && r[i].spent == CalculateSpent(budgets[i], es)
  {
    ChartSpentAgrees(budgets, es);
    seq(|budgets|, i requires 0 <= i < |budgets| =>
      ChartEntry(budgets[i].category, budgets[i].amount, ChartSpent(budgets[i], es)))
  }

  /** What the chart shows: a placeholder while loading, a notice when there are no budgets,
      otherwise the bars. */
  datatype ChartView = Loading | NoBudgets | Bars(data: seq<ChartEntry>)

  function View(budgetsLoading: bool, expensesLoading: bool, budgets: seq<Budget>, es: seq<Expense>): (v: ChartView)
    ensures v.Loading? <==> budgetsLoading || expensesLoading
    ensures v.NoBudgets? <==> !budgetsLoading && !expensesLoading && budgets == []
    ensures v.Bars? ==> |v.data| == |budgets| > 0
    ensures v.Bars? ==> v.data == ChartData(budgets, es)
  {
    var data := ChartData(budgets, es);
    if budgetsLoading || expensesLoading then Loading
    else if |data| == 0 then NoBudgets
    else Bars(data)
  }
}
