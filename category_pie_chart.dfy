/** The category pie chart (client/src/components/charts/category-pie-chart.tsx): the
    expenses grouped by category, one slice per category present holding the category's
    total, slices ordered from the largest total down, coloured from a palette of five. */
module CategoryPieChart {
  import opened Schema
  import opened Sequences
  import opened Grouping

  /** The slices: the category groups in first-occurrence order, then sorted by total,
      largest first, equal totals keeping their order. */
  function Slices(es: seq<Expense>): seq<(Category, real)>
  {
    SortDesc(Groups(es, ExpenseCategory, ExpenseAmount), EntryTotal)
  }

  /** The reducer over the expenses into `{ name, value }` records (each created on first
      sight of its category, then increased by every amount), then `Object.values` and the
      descending sort on `value`: the category groups, reordered largest first. */
  method ChartData(es: seq<Expense>) returns (r: seq<(Category, real)>)
    ensures r == Slices(es)
    ensures SortedDesc(r, EntryTotal)
    ensures multiset(r) == multiset(Groups(es, ExpenseCategory, ExpenseAmount))
  {
    var categoryData := GroupTotals(es, ExpenseCategory, ExpenseAmount);
    r := SortDesc(categoryData, EntryTotal);
  }

  /** Each slice holds the total of its category, and no category has two slices. */
  lemma SlicesAreCategoryTotals(es: seq<Expense>)
    ensures forall i :: 0 <= i < |Slices(es)| ==>
      Slices(es)[i].1 == GroupTotal(es, ExpenseCategory, ExpenseAmount, Slices(es)[i].0)
    ensures forall i, j :: 0 <= i < j < |Slices(es)| ==> Slices(es)[i].0 != Slices(es)[j].0
  {
    ReorderedGroupTotals(es, ExpenseCategory, ExpenseAmount, Slices(es));
    ReorderedGroupKeysDistinct(es, ExpenseCategory, ExpenseAmount, Slices(es));
  }

  /** There is a slice for every category of an expense, and for no other category. */
  lemma SlicesCoverCategories(es: seq<Expense>)
    ensures forall e :: e in es ==> exists i :: 0 <= i < |Slices(es)| && Slices(es)[i].0 == ExpenseCategory(e)
    ensures forall i :: 0 <= i < |Slices(es)| ==> exists e :: e in es && ExpenseCategory(e) == Slices(es)[i].0
  {
    ReorderedKeysOccur(es, ExpenseCategory, ExpenseAmount, Slices(es));
    ReorderedKeysCovered(es, ExpenseCategory, ExpenseAmount, Slices(es));
  }

  /** The slices add up to the total of all expenses, and there are none exactly when there
      are no expenses. */
  lemma SlicesConserveTotal(es: seq<Expense>)
    ensures SumBy(Slices(es), EntryTotal) == SumBy(es, ExpenseAmount)
    ensures Slices(es) == [] <==> es == []
  {
    var g := Groups(es, ExpenseCategory, ExpenseAmount);
    GroupsConserveTotal(es, ExpenseCategory, ExpenseAmount);
    SumByPermutation(g, Slices(es), EntryTotal);
    ReorderedGroupMembers(es, ExpenseCategory, ExpenseAmount, Slices(es));
    GroupsEmpty(es, ExpenseCategory, ExpenseAmount);
  }

  const Colors: seq<string> := [
    "hsl(var(--chart-1))",
    "hsl(var(--chart-2))",
    "hsl(var(--chart-3))",
    "hsl(var(--chart-4))",
    "hsl(var(--chart-5))"
  ]

  /** `COLORS[index % COLORS.length]`: the palette wraps around after five slices. */
  function CellColor(index: nat): (c: string)
    ensures c in Colors
    ensures index < |Colors| ==> c == Colors[index]
  {
    Colors[index % |Colors|]
  }

  /** The palette's five colours are different from each other. */
  lemma PaletteDistinct()
    ensures Distinct(Colors)
  {
    forall i, j | 0 <= i < j < |Colors|
      ensures Colors[i] != Colors[j]
    {
      assert Colors[i][16] != Colors[j][16];
    }
  }

  /** Any five consecutive slices have five different colours, and the sixth repeats the first. */
  lemma NearbySlicesDiffer(i: nat, j: nat)
    requires i < j < i + |Colors|
    ensures CellColor(i) != CellColor(j)
    ensures CellColor(i + |Colors|) == CellColor(i)
  {
    var d := j - i;
    assert 0 < d < 5;
    assert (i + d) % 5 != i % 5 by {
      var q, m := i / 5, i % 5;
      assert i == 5 * q + m;
      if m + d < 5 {
        assert i + d == 5 * q + (m + d);
      } else {
        assert i + d == 5 * (q + 1) + (m + d - 5);
      }
    }
    assert (i + 5) % 5 == i % 5;
    PaletteDistinct();
  }

  /** What the chart shows: a placeholder while loading, a notice when there is nothing to
      show, otherwise the slices. */
  datatype ChartView = Loading | NoData | Pie(slices: seq<(Category, real)>)

  function View(isLoading: bool, es: seq<Expense>): (v: ChartView)
    ensures v.Loading? <==> isLoading
    ensures v.NoData? <==> !isLoading && es == []
    ensures v.Pie? ==> v.slices == Slices(es) && v.slices != []
  {
    SlicesConserveTotal(es);
    if isLoading then Loading
    else if |Slices(es)| == 0 then NoData
    else Pie(Slices(es))
  }
}
