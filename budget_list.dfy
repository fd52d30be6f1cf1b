/** Budget-versus-actual on the budgets page (client/src/components/budget-list.tsx): how
    much of a budget has been spent, the percentage and progress shown, and whether the
    budget is exceeded and by how much. */
module BudgetList {
  import opened Calendar
  import opened Schema
  import opened Sequences

  /** The expense counts against the budget: same category, and its date falls in the same
      month of the same year as the budget's month. The day of the month plays no part. */
  predicate MatchesBudget(e: Expense, b: Budget)
    ensures MatchesBudget(e, b) <==> e.category == b.category && MonthOf(e.date) == MonthOf(b.month)
  {
    e.category == b.category && e.date.month == b.month.month && e.date.year == b.month.year
  }

  /** `calculateSpent(budget)`: the amounts of the matching expenses, added up from 0. */
  function CalculateSpent(b: Budget, es: seq<Expense>): (spent: real)
    ensures (forall e :: e in es ==> !MatchesBudget(e, b)) ==> spent == 0.0
    ensures NonNegativeAmounts(es) ==> 0.0 <= spent <= SumBy(es, ExpenseAmount)
  {
    var matching := Filter(es, MatchesBudget, b);
    assert matching != [] ==> matching[0] in matching;
    if NonNegativeAmounts(es) then
      FilterSumAtMost(es, MatchesBudget, b, ExpenseAmount);
      SumBy(matching, ExpenseAmount)
    else
      SumBy(matching, ExpenseAmount)
  }

  /** Only the budget's category, month and year matter: budgets that agree on those are
      charged the same expenses, whatever day of the month they were set for. */
  lemma SpentIgnoresDayOfMonth(b: Budget, b': Budget, es: seq<Expense>)
    requires b.category == b'.category && b.month.month == b'.month.month && b.month.year == b'.month.year
    ensures CalculateSpent(b, es) == CalculateSpent(b', es)
  {
    FilterCongruent(es, MatchesBudget, b, MatchesBudget, b');
  }

  /** `spent > budget.amount`: spending exactly the budget is not over it. */
  predicate IsOverBudget(spent: real, amount: real)
    ensures IsOverBudget(spent, amount) ==> spent != amount
    ensures !IsOverBudget(spent, amount) <==> spent <= amount
  {
    spent > amount
  }

  /** `(spent / budget.amount) * 100`. A budget of 0, which the budget validator accepts,
      would divide by zero here. */
  function Percentage(spent: real, amount: real): (p: real)
    requires amount > 0.0
    ensures p * amount == spent * 100.0
    ensures p > 100.0 <==> IsOverBudget(spent, amount)
    ensures p == 100.0 <==> spent == amount
    ensures spent >= 0.0 ==> p >= 0.0
  {
    (spent / amount) * 100.0
  }

  /** The progress bar's value, `Math.min(percentage, 100)`. */
  function ProgressValue(percentage: real): (v: real)
    ensures v <= 100.0
    ensures v == percentage || v == 100.0
    ensures v < 100.0 <==> percentage < 100.0
  {
    if percentage < 100.0 then percentage else 100.0
  }

  /** The bar is full exactly when the spending has reached the budget. */
  lemma ProgressFullWhenBudgetReached(spent: real, amount: real)
    requires amount > 0.0
    ensures ProgressValue(Percentage(spent, amount)) == 100.0 <==> spent >= amount
  {
  }

  /** The line under the bar: how far over the budget, or how much of it remains. */
  datatype BudgetStatus = Over(excess: real) | Remaining(left: real)

  function Status(spent: real, amount: real): (s: BudgetStatus)
    ensures s.Over? <==> IsOverBudget(spent, amount)
    ensures s.Over? ==> s.excess > 0.0 && amount + s.excess == spent
    ensures s.Remaining? ==> s.left >= 0.0 && spent + s.left == amount
  {
    if IsOverBudget(spent, amount) then Over(spent - amount) else Remaining(amount - spent)
  }
}
