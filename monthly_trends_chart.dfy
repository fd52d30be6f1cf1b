/** The monthly trends chart (client/src/components/charts/monthly-trends-chart.tsx): the
    expenses grouped by calendar month, one bar per month present holding that month's
    total, in chronological order, and only the latest six months kept. The month label
    ("Jan 2024") and its parsing back into a date are represented by the month itself. */
module MonthlyTrendsChart {
  import opened Calendar
  import opened Schema
  import opened Sequences
  import opened Grouping

  /** How many months the chart keeps: `slice(-6)`. */
  const MonthsShown: nat := 6

  /** Sort key that puts earlier months last, so that a descending sort is chronological. */
  function LaterFirst(entry: (YearMonth, real)): real
  {
    -(MonthIndex(entry.0) as real)
  }

  /** The bars: month groups in first-occurrence order, sorted oldest first, the last six kept. */
  function Trend(es: seq<Expense>): seq<(YearMonth, real)>
  {
    LastN(Chronological(es), MonthsShown)
  }

  /** The reducer over the expenses into `{ month, amount }` records keyed by the month label,
      then `Object.values`, the sort by the label's date, oldest first, and `slice(-6)`. */
  method ChartData(es: seq<Expense>) returns (r: seq<(YearMonth, real)>)
    ensures r == Trend(es)
  {
    var monthlyData := GroupTotals(es, ExpenseMonth, ExpenseAmount);
    var sorted := SortDesc(monthlyData, LaterFirst);
    r := LastN(sorted, MonthsShown);
  }

  /** Every expense's date is a calendar date's month (`getMonth()` is always 0..11). */
  predicate CalendarMonths(es: seq<Expense>)
  {
    forall e :: e in es ==> 1 <= e.date.month <= 12
  }

  /** The month groups sorted oldest first, before the cut to six. */
  function Chronological(es: seq<Expense>): seq<(YearMonth, real)>
  {
    SortDesc(Groups(es, ExpenseMonth, ExpenseAmount), LaterFirst)
  }

  /** At most six bars, fewer only when fewer months are present, and none exactly when
      there are no expenses. */
  lemma TrendSize(es: seq<Expense>)
    ensures |Trend(es)| == if |FirstKeys(es, ExpenseMonth)| < MonthsShown then |FirstKeys(es, ExpenseMonth)| else MonthsShown
    ensures Trend(es) == [] <==> es == []
  {
    ReorderedGroupMembers(es, ExpenseMonth, ExpenseAmount, Chronological(es));
    GroupsEmpty(es, ExpenseMonth, ExpenseAmount);
  }

  /** Each bar is a month in which something was spent, holds that month's total, and no
      month has two bars. */
  lemma TrendBarsAreMonthTotals(es: seq<Expense>)
    ensures forall i :: 0 <= i < |Trend(es)| ==>
      Trend(es)[i].1 == GroupTotal(es, ExpenseMonth, ExpenseAmount, Trend(es)[i].0)
    ensures forall i :: 0 <= i < |Trend(es)| ==> exists e :: e in es && ExpenseMonth(e) == Trend(es)[i].0
    ensures forall i, j :: 0 <= i < j < |Trend(es)| ==> Trend(es)[i].0 != Trend(es)[j].0
  {
    var sorted := Chronological(es);
    LastNIsSuffix(sorted, MonthsShown);
    var start := |sorted| - |Trend(es)|;
    TrendBarTotals(es, sorted, start);
    TrendBarMonthsPresent(es, sorted, start);
    TrendBarMonthsDistinct(es, sorted, start);
  }

  lemma TrendBarTotals(es: seq<Expense>, sorted: seq<(YearMonth, real)>, start: nat)
    requires sorted == Chronological(es) && start <= |sorted|
    ensures forall i :: 0 <= i < |sorted[start..]| ==>
      sorted[start..][i].1 == GroupTotal(es, ExpenseMonth, ExpenseAmount, sorted[start..][i].0)
  {
    ReorderedGroupTotals(es, ExpenseMonth, ExpenseAmount, sorted);
    forall i | 0 <= i < |sorted[start..]|
      ensures sorted[start..][i].1 == GroupTotal(es, ExpenseMonth, ExpenseAmount, sorted[start..][i].0)
    {
      assert sorted[start..][i] == sorted[start + i];
    }
  }

  lemma TrendBarMonthsPresent(es: seq<Expense>, sorted: seq<(YearMonth, real)>, start: nat)
    requires sorted == Chronological(es) && start <= |sorted|
    ensures forall i :: 0 <= i < |sorted[start..]| ==> exists e :: e in es && ExpenseMonth(e) == sorted[start..][i].0
  {
    ReorderedKeysOccur(es, ExpenseMonth, ExpenseAmount, sorted);
    forall i | 0 <= i < |sorted[start..]|
      ensures exists e :: e in es && ExpenseMonth(e) == sorted[start..][i].0
    {
      assert sorted[start..][i] == sorted[start + i];
    }
  }

  lemma TrendBarMonthsDistinct(es: seq<Expense>, sorted: seq<(YearMonth, real)>, start: nat)
    requires sorted == Chronological(es) && start <= |sorted|
    ensures forall i, j :: 0 <= i < j < |sorted[start..]| ==> sorted[start..][i].0 != sorted[start..][j].0
  {
    ReorderedGroupKeysDistinct(es, ExpenseMonth, ExpenseAmount, sorted);
    forall i, j | 0 <= i < j < |sorted[start..]|
      ensures sorted[start..][i].0 != sorted[start..][j].0
    {
      assert sorted[start..][i] == sorted[start + i] && sorted[start..][j] == sorted[start + j];
    }
  }

  /** Months strictly increase along `t`. */
  predicate StrictlyChronological(t: seq<(YearMonth, real)>)
  {
    forall i, j :: 0 <= i < j < |t| ==> MonthIndex(t[i].0) < MonthIndex(t[j].0)
  }

  /** Sorted by `LaterFirst`, entries with distinct calendar months run strictly oldest to newest. */
  lemma SortedDistinctMonthsAreStrict(t: seq<(YearMonth, real)>)
    requires SortedDesc(t, LaterFirst)
    requires forall i, j :: 0 <= i < j < |t| ==> t[i].0 != t[j].0
    requires forall i :: 0 <= i < |t| ==> 1 <= t[i].0.month <= 12
    ensures StrictlyChronological(t)
  {
    forall i, j | 0 <= i < j < |t|
      ensures MonthIndex(t[i].0) < MonthIndex(t[j].0)
    {
      assert LaterFirst(t[i]) >= LaterFirst(t[j]);
      MonthIndexOrdersMonths(t[i].0, t[j].0);
    }
  }

  /** A suffix of a strictly chronological sequence is strictly chronological. */
  lemma SuffixIsChronological(t: seq<(YearMonth, real)>, start: nat)
    requires start <= |t| && StrictlyChronological(t)
    ensures StrictlyChronological(t[start..])
  {
    var r := t[start..];
    forall i, j | 0 <= i < j < |r|
      ensures MonthIndex(r[i].0) < MonthIndex(r[j].0)
    {
      assert r[i] == t[start + i] && r[j] == t[start + j];
    }
  }

  /** Where the month of expense `e` sits among the sorted month groups. */
  lemma MonthPosition(es: seq<Expense>, e: Expense) returns (p: nat)
    requires e in es
    ensures p < |Chronological(es)| && Chronological(es)[p].0 == ExpenseMonth(e)
  {
    ReorderedKeysCovered(es, ExpenseMonth, ExpenseAmount, Chronological(es));
    p :| 0 <= p < |Chronological(es)| && Chronological(es)[p].0 == ExpenseMonth(e);
  }

  /** In a strictly chronological sequence, an entry is either in the suffix from `start` or
      older than every entry of that suffix. */
  lemma KeptOrOlder(t: seq<(YearMonth, real)>, start: nat, p: nat)
    requires start <= |t| && p < |t| && StrictlyChronological(t)
    ensures (exists i :: 0 <= i < |t[start..]| && t[start..][i].0 == t[p].0)
            || (forall i :: 0 <= i < |t[start..]| ==> MonthIndex(t[p].0) < MonthIndex(t[start..][i].0))
  {
    if p >= start {
      assert t[start..][p - start] == t[p];
    } else {
      forall i | 0 <= i < |t[start..]|
        ensures MonthIndex(t[p].0) < MonthIndex(t[start..][i].0)
      {
        assert t[start..][i] == t[start + i];
      }
    }
  }

  /** Every month group of calendar dates is keyed by a calendar month. */
  lemma ChronologicalHasCalendarMonths(es: seq<Expense>)
    requires CalendarMonths(es)
    ensures forall i :: 0 <= i < |Chronological(es)| ==> 1 <= Chronological(es)[i].0.month <= 12
  {
    var sorted := Chronological(es);
    ReorderedKeysOccur(es, ExpenseMonth, ExpenseAmount, sorted);
    forall i | 0 <= i < |sorted|
      ensures 1 <= sorted[i].0.month <= 12
    {
      var x :| x in es && ExpenseMonth(x) == sorted[i].0;
    }
  }

  /** The month groups of calendar dates, sorted, run strictly oldest to newest. */
  lemma ChronologicalIsStrict(es: seq<Expense>)
    requires CalendarMonths(es)
    ensures StrictlyChronological(Chronological(es))
  {
    ChronologicalHasCalendarMonths(es);
    ReorderedGroupKeysDistinct(es, ExpenseMonth, ExpenseAmount, Chronological(es));
    SortedDistinctMonthsAreStrict(Chronological(es));
  }

  /** The bars run strictly oldest to newest. */
  lemma TrendIsChronological(es: seq<Expense>)
    requires CalendarMonths(es)
    ensures StrictlyChronological(Trend(es))
  {
    ChronologicalIsStrict(es);
    LastNIsSuffix(Chronological(es), MonthsShown);
    SuffixIsChronological(Chronological(es), |Chronological(es)| - |Trend(es)|);
  }

  /** Every month with expenses that has no bar is older than every month shown: the chart
      shows the latest months present. */
  lemma TrendShowsLatestMonths(es: seq<Expense>)
    requires CalendarMonths(es)
    ensures forall e :: e in es ==>
      (exists i :: 0 <= i < |Trend(es)| && Trend(es)[i].0 == ExpenseMonth(e))
      || (forall i :: 0 <= i < |Trend(es)| ==> MonthIndex(ExpenseMonth(e)) < MonthIndex(Trend(es)[i].0))
  {
    var sorted := Chronological(es);
    forall e | e in es
      ensures (exists i :: 0 <= i < |Trend(es)| && Trend(es)[i].0 == ExpenseMonth(e))
              || (forall i :: 0 <= i < |Trend(es)| ==> MonthIndex(ExpenseMonth(e)) < MonthIndex(Trend(es)[i].0))
    {
      var p := MonthPosition(es, e);
      ChronologicalIsStrict(es);
      LastNIsSuffix(sorted, MonthsShown);
      KeptOrOlder(sorted, |sorted| - |Trend(es)|, p);
    }
  }

  /** What the chart shows: a placeholder while loading, a notice when there is nothing to
      show, otherwise the bars. */
  datatype ChartView = Loading | NoData | Bars(bars: seq<(YearMonth, real)>)

  function View(isLoading: bool, es: seq<Expense>): (v: ChartView)
    ensures v.Loading? <==> isLoading
    ensures v.NoData? <==> !isLoading && es == []
    ensures v.Bars? ==> v.bars == Trend(es) && 0 < |v.bars| <= MonthsShown
  {
    TrendSize(es);
    if isLoading then Loading
    else if |Trend(es)| == 0 then NoData
    else Bars(Trend(es))
  }
}
