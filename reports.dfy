/** The reports page: the weekly table and chart rows, the per-week usage
    with its colour band, the weekly average and the category count. */
module Reports {
  import opened Js
  import opened Finance
  import opened Colours
  import opened Summaries

  /** One row of `weeklyData`; `allocation` is the source's `allocated`. */
  datatype WeeklyRow = WeeklyRow(week: string, allocation: int, spent: int, remaining: int)

  /** The label `Week ${n}`. */
  function WeekLabel(n: int): (text: string)
    ensures |text| > 5 && text[..5] == "Week "
  {
    "Week " + IntToString(n)
  }

  /** Different weeks get different labels: the number after "Week " reads
      back as the week. */
  lemma WeekLabelsDistinct(a: int, b: int)
    requires WeekLabel(a) == WeekLabel(b)
    ensures a == b
  {
    assert WeekLabel(a)[5..] == IntToString(a);
    assert WeekLabel(b)[5..] == IntToString(b);
    ParseIntToString(a);
    ParseIntToString(b);
  }

  /** `weeklySummaries.map(week => ({ week: `Week ${week.week}`, ... }))`.
      What the chart rows hold for the store is stated by `WeeklyDataOfStore`. */
  function WeeklyData(summaries: seq<WeeklySummary>): (rows: seq<WeeklyRow>)
    ensures |rows| == |summaries|
    ensures forall i :: 0 <= i < |rows| ==>
      && rows[i].week == WeekLabel(summaries[i].week)
      && rows[i].allocation == summaries[i].allocation
      && rows[i].spent == summaries[i].spent
      && rows[i].remaining == summaries[i].remaining
  {
    seq(|summaries|, i requires 0 <= i < |summaries| =>
      WeeklyRow(WeekLabel(summaries[i].week), summaries[i].allocation, summaries[i].spent, summaries[i].remaining))
  }

  /** The store's four summaries give four rows, labelled with four
      different labels, and a row's remaining amount is its allocation
      minus what was spent. */
  lemma WeeklyDataOfStore(b: Budget, es: seq<Expense>)
    ensures var rows := WeeklyData(WeeklySummaries(b, es));
      && |rows| == 4
      && (forall i :: 0 <= i < 4 ==> rows[i].week == WeekLabel(i + 1) && rows[i].remaining == rows[i].allocation - rows[i].spent)
      && (forall i, j :: 0 <= i < j < 4 ==> rows[i].week != rows[j].week)
  {
    var rows := WeeklyData(WeeklySummaries(b, es));
    forall i, j | 0 <= i < j < 4 ensures rows[i].week != rows[j].week {
      if rows[i].week == rows[j].week {
        WeekLabelsDistinct(i + 1, j + 1);
      }
    }
  }

  /** `week.allocated > 0 ? (week.spent / week.allocated) * 100 : 0`. */
  function WeekUsage(s: WeeklySummary): real
  {
    GuardedPercent(s.spent, s.allocation)
  }

  /** Red above 100 percent, yellow above 80, green otherwise. */
  function WeekUsageColour(s: WeeklySummary): Colour
  {
    var usage := WeekUsage(s);
    if usage > 100.0 then Red
    else if usage > 80.0 then Yellow
    else Green
  }

  /** For an allocated week the band follows the amounts; a week without
      an allocation shows 0 percent in green, however much was spent in it. */
  lemma WeekUsageColourBands(s: WeeklySummary)
    ensures s.allocation > 0 ==> (WeekUsageColour(s) == Red <==> s.spent > s.allocation)
    ensures s.allocation > 0 ==> (WeekUsageColour(s) == Yellow <==> s.spent <= s.allocation && 100 * s.spent > 80 * s.allocation)
    ensures s.allocation <= 0 ==> WeekUsage(s) == 0.0 && WeekUsageColour(s) == Green
  {
    if s.allocation > 0 {
      GuardedPercentExceeds(s.spent, s.allocation, 100.0);
      GuardedPercentExceeds(s.spent, s.allocation, 80.0);
    }
  }

  /** `monthlySummary.totalSpent / 4`. */
  function WeeklyAverage(m: MonthlySummary): real
  {
    m.totalSpent as real / 4.0
  }

  /** When every expense sits in one of the four weeks, the weekly average
      is the mean of the four weeks' spending. */
  lemma WeeklyAverageIsMeanOfWeeks(b: Budget, es: seq<Expense>)
    requires WeeksInRange(es)
    ensures WeeklyAverage(MonthlySummaryOf(b, es)) * 4.0 == SpentOfWeeks(WeeklySummaries(b, es)) as real
  {
    WeeklySpentSumsToMonthlyTotal(b, es);
  }

  /** The "Categories" card shows the number of breakdown entries; the pie
      chart is replaced by "No expenses to display" when there are none. */
  function CategoryCount(breakdown: seq<CategoryTotal>): int
  {
    |breakdown|
  }

  predicate ShowsNoExpensesMessage(breakdown: seq<CategoryTotal>)
  {
    |breakdown| == 0
  }

  lemma CategoryCountOfStore(es: seq<Expense>)
    ensures 0 <= CategoryCount(CategoryBreakdown(es)) <= 5
    ensures ShowsNoExpensesMessage(CategoryBreakdown(es)) <==> |es| == 0
  {
    BreakdownSize(es);
  }
}
