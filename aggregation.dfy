/** The server's aggregation over one user's expense list (server/routes.ts, the
    `/api/expenses/stats/summary` and `/api/analytics/summary` handlers): totals, the
    current-month total and its per-day average, the per-category breakdown and the
    category with the largest total. The list is the one `getExpenses` returns; "now" is a
    parameter. */
module Aggregation {
  import opened Calendar
  import opened Schema
  import opened Sequences
  import opened Grouping

  /** `expenses.reduce((sum, e) => sum + e.amount, 0)` */
  function Total(es: seq<Expense>): (t: real)
    ensures NonNegativeAmounts(es) ==> t >= 0.0
  {
    SumBy(es, ExpenseAmount)
  }

  /** The expense falls in calendar month `m` (same `getMonth()` and `getFullYear()`). */
  predicate InMonth(e: Expense, m: YearMonth)
  {
    MonthOf(e.date) == m
  }

  /** With non-negative amounts, the expenses of one month never add up to more than all of them. */
  lemma MonthlyAtMostTotal(es: seq<Expense>, m: YearMonth)
    requires NonNegativeAmounts(es)
    ensures 0.0 <= Total(Filter(es, InMonth, m)) <= Total(es)
  {
    FilterSumAtMost(es, InMonth, m, ExpenseAmount);
  }

  /** The sum of the amounts of the expenses in category `c`. */
  function CategoryTotal(es: seq<Expense>, c: Category): real
  {
    GroupTotal(es, ExpenseCategory, ExpenseAmount, c)
  }

  datatype StatsSummary = StatsSummary(
    totalSpent: real,
    monthlySpent: real,
    totalExpenses: nat,
    averageDaily: real,
    categoryBreakdown: seq<(Category, real)>)

  /** `total / n`: the share that, taken `n` times, gives the total. */
  function Mean(total: real, n: real): (m: real)
    requires n > 0.0
    ensures m * n == total
  {
    total / n
  }

  /** The statistics summary for the expenses `es` at the moment `now`. */
  method Stats(es: seq<Expense>, now: Date) returns (r: StatsSummary)
    requires 1 <= now.month <= 12
    ensures r.totalSpent == Total(es) && r.totalExpenses == |es|
    ensures r.monthlySpent == Total(Filter(es, InMonth, MonthOf(now)))
    ensures r.averageDaily == Mean(r.monthlySpent, DaysInMonth(now.year, now.month) as real)
    ensures r.categoryBreakdown == Groups(es, ExpenseCategory, ExpenseAmount)
    ensures SumBy(r.categoryBreakdown, EntryTotal) == r.totalSpent
    ensures NonNegativeAmounts(es) ==> 0.0 <= r.monthlySpent <= r.totalSpent
  {
    var totalSpent := Total(es);
    var monthlySpent := Total(Filter(es, InMonth, MonthOf(now)));
    // the day-of-month of "day 0 of the next month"
    var daysInMonth := DaysInMonth(now.year, now.month);
    var averageDaily := Mean(monthlySpent, daysInMonth as real);
    var breakdown := GroupTotals(es, ExpenseCategory, ExpenseAmount);
    GroupsConserveTotal(es, ExpenseCategory, ExpenseAmount);
    if NonNegativeAmounts(es) {
      MonthlyAtMostTotal(es, MonthOf(now));
    }
    r := StatsSummary(totalSpent, monthlySpent, |es|, averageDaily, breakdown);
  }

  /** `Object.entries(categoryTotals).sort((a, b) => b[1] - a[1])[0]?.[0] || "N/A"`: the name of
      the first group, in key order, among those with the largest total; "N/A" with no groups. */
  function TopCategory(groups: seq<(Category, real)>): (r: string)
    ensures r == "N/A" <==> groups == []
    ensures groups != [] ==> r == CategoryName(groups[FirstMaxIndex(groups, EntryTotal)].0)
  {
    if groups == [] then "N/A"
    else
      SortDescHead(groups, EntryTotal);
      assert CategoryName(groups[FirstMaxIndex(groups, EntryTotal)].0) in CategoryNames;
      CategoryName(SortDesc(groups, EntryTotal)[0].0)
  }

  /** The top category is the category of some expense, and no category present has a larger total. */
  lemma TopCategoryIsLargest(es: seq<Expense>)
    requires es != []
    ensures exists x :: (x in es && TopCategory(Groups(es, ExpenseCategory, ExpenseAmount)) == CategoryName(x.category)
                         && forall y :: y in es ==> CategoryTotal(es, y.category) <= CategoryTotal(es, x.category))
  {
    var ks := FirstKeys(es, ExpenseCategory);
    var groups := Groups(es, ExpenseCategory, ExpenseAmount);
    assert ExpenseCategory(es[0]) in ks;
    var i := FirstMaxIndex(groups, EntryTotal);
    assert ks[i] in ks;
    var x :| x in es && ExpenseCategory(x) == ks[i];
    forall y | y in es
      ensures CategoryTotal(es, y.category) <= CategoryTotal(es, x.category)
    {
      assert ExpenseCategory(y) in ks;
      var j :| 0 <= j < |ks| && ks[j] == y.category;
      assert EntryTotal(groups[j]) <= EntryTotal(groups[i]);
    }
  }

  /** `b` describes the spending of `es` by category: one entry for each category that occurs
      in `es` and for no other, each carrying that category's total. */
  predicate BreakdownOf(b: seq<(Category, real)>, es: seq<Expense>)
  {
    && (forall i, j :: 0 <= i < j < |b| ==> b[i].0 != b[j].0)
    && (forall i :: 0 <= i < |b| ==> b[i].1 == CategoryTotal(es, b[i].0))
    && (forall e :: e in es ==> exists i :: 0 <= i < |b| && b[i].0 == e.category)
    && (forall i :: 0 <= i < |b| ==> exists e :: e in es && e.category == b[i].0)
  }

  /** A reordering holds the same expenses. */
  lemma ReorderingSameMembers(listing: seq<Expense>, es: seq<Expense>)
    requires multiset(listing) == multiset(es)
    ensures forall e :: e in listing <==> e in es
  {
    forall e
      ensures e in listing <==> e in es
    {
      assert e in listing <==> e in multiset(listing);
      assert e in es <==> e in multiset(es);
    }
  }

  /** The breakdown computed over any ordering of the expenses describes them. */
  lemma BreakdownOfReordering(listing: seq<Expense>, es: seq<Expense>)
    requires multiset(listing) == multiset(es)
    ensures BreakdownOf(Groups(listing, ExpenseCategory, ExpenseAmount), es)
  {
    GroupsOnePerKey(listing, ExpenseCategory, ExpenseAmount, Food);
    BreakdownTotals(listing, es);
    BreakdownCoversExpenses(listing, es);
    BreakdownKeysOccur(listing, es);
  }

  lemma BreakdownTotals(listing: seq<Expense>, es: seq<Expense>)
    requires multiset(listing) == multiset(es)
    ensures var g := Groups(listing, ExpenseCategory, ExpenseAmount);
      forall i :: 0 <= i < |g| ==> g[i].1 == CategoryTotal(es, g[i].0)
  {
    var g := Groups(listing, ExpenseCategory, ExpenseAmount);
    forall i | 0 <= i < |g|
      ensures g[i].1 == CategoryTotal(es, g[i].0)
    {
      GroupTotalPermutation(listing, es, ExpenseCategory, ExpenseAmount, g[i].0);
    }
  }

  lemma BreakdownCoversExpenses(listing: seq<Expense>, es: seq<Expense>)
    requires multiset(listing) == multiset(es)
    ensures var g := Groups(listing, ExpenseCategory, ExpenseAmount);
      forall e :: e in es ==> exists i :: 0 <= i < |g| && g[i].0 == e.category
  {
    var g := Groups(listing, ExpenseCategory, ExpenseAmount);
    var ks := FirstKeys(listing, ExpenseCategory);
    ReorderingSameMembers(listing, es);
    forall e | e in es
      ensures exists i :: 0 <= i < |g| && g[i].0 == e.category
    {
      assert ExpenseCategory(e) in ks;
      var i :| 0 <= i < |ks| && ks[i] == e.category;
      assert g[i].0 == e.category;
    }
  }

  lemma BreakdownKeysOccur(listing: seq<Expense>, es: seq<Expense>)
    requires multiset(listing) == multiset(es)
    ensures var g := Groups(listing, ExpenseCategory, ExpenseAmount);
      forall i :: 0 <= i < |g| ==> exists e :: e in es && e.category == g[i].0
  {
    var g := Groups(listing, ExpenseCategory, ExpenseAmount);
    var ks := FirstKeys(listing, ExpenseCategory);
    ReorderingSameMembers(listing, es);
    forall i | 0 <= i < |g|
      ensures exists e :: e in es && e.category == g[i].0
    {
      assert ks[i] in ks;
      var e :| e in listing && ExpenseCategory(e) == ks[i];
      assert e in es;
    }
  }

  /** `top` names a category of `es` whose total no other category exceeds. */
  predicate IsLargestCategory(top: string, es: seq<Expense>)
  {
    es != [] ==>
      exists x :: x in es && top == CategoryName(x.category)
        && forall y :: y in es ==> CategoryTotal(es, y.category) <= CategoryTotal(es, x.category)
  }

  /** The top category computed over any ordering of the expenses is a largest category of them. */
  lemma TopCategoryOfReordering(listing: seq<Expense>, es: seq<Expense>)
    requires multiset(listing) == multiset(es)
    ensures IsLargestCategory(TopCategory(Groups(listing, ExpenseCategory, ExpenseAmount)), es)
  {
    ReorderingSameMembers(listing, es);
    if es != [] {
      assert es[0] in listing;
      TopCategoryIsLargest(listing);
      var x :| x in listing && TopCategory(Groups(listing, ExpenseCategory, ExpenseAmount)) == CategoryName(x.category)
               && forall y :: y in listing ==> CategoryTotal(listing, y.category) <= CategoryTotal(listing, x.category);
      GroupTotalPermutation(listing, es, ExpenseCategory, ExpenseAmount, x.category);
      forall y | y in es
        ensures CategoryTotal(es, y.category) <= CategoryTotal(es, x.category)
      {
        GroupTotalPermutation(listing, es, ExpenseCategory, ExpenseAmount, y.category);
      }
    }
  }

  datatype AnalyticsSummary = AnalyticsSummary(totalSpent: real, averageExpense: real, topCategory: string)

  /** The analytics summary for the expenses `es`. */
  method Analytics(es: seq<Expense>) returns (r: AnalyticsSummary)
    ensures r.totalSpent == Total(es)
    ensures |es| > 0 ==> r.averageExpense == Mean(r.totalSpent, |es| as real)
    ensures |es| == 0 ==> r.averageExpense == 0.0
    ensures r.topCategory == TopCategory(Groups(es, ExpenseCategory, ExpenseAmount))
    ensures r.topCategory == "N/A" <==> es == []
  {
    var totalSpent := Total(es);
    var averageExpense := if |es| > 0 then Mean(totalSpent, |es| as real) else 0.0;
    var categoryTotals := GroupTotals(es, ExpenseCategory, ExpenseAmount);
    GroupsEmpty(es, ExpenseCategory, ExpenseAmount);
    r := AnalyticsSummary(totalSpent, averageExpense, TopCategory(categoryTotals));
  }
}
