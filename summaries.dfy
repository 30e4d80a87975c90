/** The aggregator: weekly summaries, the monthly summary and the category
    breakdown, all recomputed from the budget and the expense list. Sums are
    left folds over the list, as `reduce` computes them. */
module Summaries {
  import opened Js
  import opened Finance

  /** `expenses.reduce((sum, e) => sum + e.amount, 0)`. */
  function TotalSpent(es: seq<Expense>): int
  {
    if es == [] then 0 else TotalSpent(es[..|es| - 1]) + es[|es| - 1].amount
  }

  lemma TotalSpentAppend(es: seq<Expense>, e: Expense)
    ensures TotalSpent(es + [e]) == TotalSpent(es) + e.amount
  {
    assert (es + [e])[..|es|] == es;
  }

  /** `expenses.filter(e => e.week === week)`. */
  function InWeek(es: seq<Expense>, week: int): seq<Expense>
  {
    if es == [] then []
    else InWeek(es[..|es| - 1], week) + (if es[|es| - 1].week == week then [es[|es| - 1]] else [])
  }

  /** The expenses whose stored week is one of the four buckets. */
  function InMonthWeeks(es: seq<Expense>): seq<Expense>
  {
    if es == [] then []
    else InMonthWeeks(es[..|es| - 1]) + (if 1 <= es[|es| - 1].week <= 4 then [es[|es| - 1]] else [])
  }

  predicate WeeksInRange(es: seq<Expense>)
  {
    forall i :: 0 <= i < |es| ==> 1 <= es[i].week <= 4
  }

  function SpentInWeek(es: seq<Expense>, week: int): int
  {
    TotalSpent(InWeek(es, week))
  }

  lemma SpentInWeekAppend(es: seq<Expense>, e: Expense, week: int)
    ensures SpentInWeek(es + [e], week) == SpentInWeek(es, week) + (if e.week == week then e.amount else 0)
  {
    assert (es + [e])[..|es|] == es;
    if e.week == week {
      TotalSpentAppend(InWeek(es, week), e);
    } else {
      assert InWeek(es + [e], week) == InWeek(es, week);
    }
  }

  /** The summary of week `w`: its allocation, what was spent in it, and the
      difference, which is negative when the week is overspent. */
  function WeekSummary(b: Budget, es: seq<Expense>, w: int): WeeklySummary
    requires 1 <= w <= 4
  {
    var allocation := Allocated(b.weeks, w);
    var spent := SpentInWeek(es, w);
    WeeklySummary(w, allocation, spent, allocation - spent)
  }

  /** `weeklySummaries`: `[1, 2, 3, 4].map(...)`. */
  function WeeklySummaries(b: Budget, es: seq<Expense>): (r: seq<WeeklySummary>)
    ensures |r| == 4
    ensures forall i :: 0 <= i < 4 ==>
      && r[i].week == i + 1
      && r[i].allocation == Allocated(b.weeks, i + 1)
      && r[i].spent == SpentInWeek(es, i + 1)
      && r[i].remaining == r[i].allocation - r[i].spent
  {
    [WeekSummary(b, es, 1), WeekSummary(b, es, 2), WeekSummary(b, es, 3), WeekSummary(b, es, 4)]
  }

  /** `monthlySummary`; the usage percentage has no guard against a zero
      monthly budget. */
  function MonthlySummaryOf(b: Budget, es: seq<Expense>): MonthlySummary
  {
    var totalSpent := TotalSpent(es);
    MonthlySummary(b.monthly, totalSpent, b.monthly - totalSpent, Percent(totalSpent, b.monthly))
  }

  function SpentOfWeeks(r: seq<WeeklySummary>): int
    requires |r| == 4
  {
    r[0].spent + r[1].spent + r[2].spent + r[3].spent
  }

  /** The four weekly amounts spent add up to what was spent on expenses
      whose week is one of the four buckets. */
  lemma {:induction false} WeeklySpentAddsUp(es: seq<Expense>)
    ensures SpentInWeek(es, 1) + SpentInWeek(es, 2) + SpentInWeek(es, 3) + SpentInWeek(es, 4)
         == TotalSpent(InMonthWeeks(es))
  {
    if es != [] {
      var p, e := es[..|es| - 1], es[|es| - 1];
      assert es == p + [e];
      WeeklySpentAddsUp(p);
      SpentInWeekAppend(p, e, 1);
      SpentInWeekAppend(p, e, 2);
      SpentInWeekAppend(p, e, 3);
      SpentInWeekAppend(p, e, 4);
      if 1 <= e.week <= 4 {
        assert InMonthWeeks(es) == InMonthWeeks(p) + [e];
        TotalSpentAppend(InMonthWeeks(p), e);
      } else {
        assert InMonthWeeks(es) == InMonthWeeks(p);
      }
    }
  }

  lemma {:induction false} InMonthWeeksOfInRange(es: seq<Expense>)
    requires WeeksInRange(es)
    ensures InMonthWeeks(es) == es
  {
    if es != [] {
      InMonthWeeksOfInRange(es[..|es| - 1]);
    }
  }

  /** The weekly `spent` values sum to the monthly `totalSpent` over the
      expenses in weeks 1..4, and to all of it when every stored week is in
      range. */
  lemma WeeklySpentSumsToMonthlyTotal(b: Budget, es: seq<Expense>)
    ensures SpentOfWeeks(WeeklySummaries(b, es)) == MonthlySummaryOf(b, InMonthWeeks(es)).totalSpent
    ensures WeeksInRange(es) ==> SpentOfWeeks(WeeklySummaries(b, es)) == MonthlySummaryOf(b, es).totalSpent
  {
    WeeklySpentAddsUp(es);
    if WeeksInRange(es) {
      InMonthWeeksOfInRange(es);
    }
  }

  /** When the weekly allocations add up to the monthly budget and every
      expense is in a bucket, the monthly remainder is the sum of the weekly
      remainders. */
  lemma MonthlyRemainingIsSumOfWeekly(b: Budget, es: seq<Expense>)
    requires WeeksTotal(b.weeks) == b.monthly && WeeksInRange(es)
    ensures var r := WeeklySummaries(b, es);
      r[0].remaining + r[1].remaining + r[2].remaining + r[3].remaining
        == MonthlySummaryOf(b, es).totalRemaining
  {
    WeeklySpentSumsToMonthlyTotal(b, es);
  }

  /** The usage percentage is a finite number exactly when the monthly
      budget is non-zero; with a zero budget it is NaN when nothing was
      spent and an infinity otherwise. */
  lemma UsagePercentageDefinedIff(b: Budget, es: seq<Expense>)
    ensures var u := MonthlySummaryOf(b, es).usagePercentage;
      && (u.Finite? <==> b.monthly != 0)
      && (u.NaN? <==> b.monthly == 0 && TotalSpent(es) == 0)
      && (b.monthly > 0 ==> u == Finite(TotalSpent(es) as real * 100.0 / b.monthly as real))
  {
    if b.monthly > 0 {
      PercentOfPositive(TotalSpent(es), b.monthly);
    }
  }

  /** Appending an expense in bucket `e.week` changes that week's summary
      by its amount and leaves the other three weeks as they were. */
  lemma AppendChangesOnlyItsWeek(b: Budget, es: seq<Expense>, e: Expense, w: int)
    requires 1 <= w <= 4
    ensures var before, after := WeeklySummaries(b, es)[w - 1], WeeklySummaries(b, es + [e])[w - 1];
      var added := if e.week == w then e.amount else 0;
      && after.week == before.week
      && after.allocation == before.allocation
      && after.spent == before.spent + added
      && after.remaining == before.remaining - added
    ensures MonthlySummaryOf(b, es + [e]).totalSpent == MonthlySummaryOf(b, es).totalSpent + e.amount
  {
    SpentInWeekAppend(es, e, w);
    TotalSpentAppend(es, e);
  }

  /** The worked example: a 15000 rupee rent payment in week 1 of the
      default budget overspends that week by 2500 and uses 30% of the month. */
  lemma RentScenario()
    ensures var b := Budget(50000, Weeks(12500, 12500, 12500, 12500));
      var es := [Expense("r", 15000, Rent, "", "2024-03-02", 1)];
      && WeeklySummaries(b, es)[0] == WeeklySummary(1, 12500, 15000, -2500)
      && MonthlySummaryOf(b, es).totalSpent == 15000
      && MonthlySummaryOf(b, es).usagePercentage == Finite(30.0)
  {
    var es := [Expense("r", 15000, Rent, "", "2024-03-02", 1)];
    TotalSpentAppend([], es[0]);
    assert [] + [es[0]] == es;
    SpentInWeekAppend([], es[0], 1);
    PercentOfPositive(15000, 50000);
  }

  // ---------------------------------------------------------------------
  // Category breakdown

  /** The expenses of one category. */
  function OfCategory(es: seq<Expense>, c: Category): seq<Expense>
  {
    if es == [] then []
    else OfCategory(es[..|es| - 1], c) + (if es[|es| - 1].category == c then [es[|es| - 1]] else [])
  }

  function CategorySpent(es: seq<Expense>, c: Category): int
  {
    TotalSpent(OfCategory(es, c))
  }

  lemma CategorySpentAppend(es: seq<Expense>, e: Expense, c: Category)
    ensures CategorySpent(es + [e], c) == CategorySpent(es, c) + (if e.category == c then e.amount else 0)
  {
    assert (es + [e])[..|es|] == es;
    if e.category == c {
      TotalSpentAppend(OfCategory(es, c), e);
    } else {
      assert OfCategory(es + [e], c) == OfCategory(es, c);
    }
  }

  /** A category no expense has has spent nothing. */
  lemma {:induction false} CategorySpentOfAbsent(es: seq<Expense>, c: Category)
    requires forall k :: 0 <= k < |es| ==> es[k].category != c
    ensures CategorySpent(es, c) == 0
  {
    if es != [] {
      var p := es[..|es| - 1];
      assert forall k :: 0 <= k < |p| ==> p[k] == es[k];
      CategorySpentOfAbsent(p, c);
      assert OfCategory(es, c) == OfCategory(p, c);
    }
  }

  predicate Distinct(cs: seq<Category>)
  {
    forall i, j :: 0 <= i < j < |cs| ==> cs[i] != cs[j]
  }

  /** The categories present in `es`, each once, in order of first
      occurrence: the key order of the accumulator object. */
  function Categories(es: seq<Expense>): seq<Category>
  {
    if es == [] then []
    else
      var cs := Categories(es[..|es| - 1]);
      var c := es[|es| - 1].category;
      if c in cs then cs else cs + [c]
  }

  lemma {:induction false} CategoriesDistinct(es: seq<Expense>)
    ensures Distinct(Categories(es))
  {
    if es != [] {
      CategoriesDistinct(es[..|es| - 1]);
    }
  }

  /** A category is listed exactly when some expense has it. */
  lemma {:induction false} CategoriesMembership(es: seq<Expense>, c: Category)
    ensures c in Categories(es) <==> exists k :: 0 <= k < |es| && es[k].category == c
  {
    if es != [] {
      var p := es[..|es| - 1];
      CategoriesMembership(p, c);
      assert forall k :: 0 <= k < |p| ==> es[k] == p[k];
      if c in Categories(p) {
        var k :| 0 <= k < |p| && p[k].category == c;
        assert es[k].category == c;
      }
    }
  }

  /** One `{ name, value }` row per category of `cs`, in that order. */
  function Rows(es: seq<Expense>, cs: seq<Category>): (r: seq<CategoryTotal>)
    ensures |r| == |cs|
    ensures forall i {:trigger r[i]} :: 0 <= i < |cs| ==> r[i] == CategoryTotal(cs[i], CategorySpent(es, cs[i]))
  {
    if cs == [] then []
    else Rows(es, cs[..|cs| - 1]) + [CategoryTotal(cs[|cs| - 1], CategorySpent(es, cs[|cs| - 1]))]
  }

  /** `categoryBreakdown`: per category present, the sum of its amounts, in
      order of first occurrence. */
  function CategoryBreakdown(es: seq<Expense>): seq<CategoryTotal>
  {
    Rows(es, Categories(es))
  }

  function SumValues(rows: seq<CategoryTotal>): int
  {
    if rows == [] then 0 else SumValues(rows[..|rows| - 1]) + rows[|rows| - 1].value
  }

  /** `keys` and `acc` are the accumulator record after reducing over `p`. */
  predicate Tallied(p: seq<Expense>, keys: seq<Category>, acc: map<Category, int>)
  {
    && keys == Categories(p)
    && (forall c :: c in acc <==> c in keys)
    && (forall c :: c in acc ==> acc[c] == CategorySpent(p, c))
  }

  /** A category is listed once, when it first occurs. */
  lemma CategoriesSnoc(p: seq<Expense>, e: Expense)
    ensures Categories(p + [e]) == if e.category in Categories(p) then Categories(p) else Categories(p) + [e.category]
  {
    assert (p + [e])[..|p|] == p;
  }

  /** The accumulator after adding `e` under its category. */
  function AddToTally(acc: map<Category, int>, e: Expense): map<Category, int>
  {
    acc[e.category := (if e.category in acc then acc[e.category] else 0) + e.amount]
  }

  /** The key order after adding `e`: a new key goes after the existing ones. */
  function AddKey(keys: seq<Category>, acc: map<Category, int>, e: Expense): seq<Category>
  {
    if e.category in acc then keys else keys + [e.category]
  }

  lemma TallyKeysStep(p: seq<Expense>, e: Expense, keys: seq<Category>, acc: map<Category, int>)
    requires Tallied(p, keys, acc)
    ensures AddKey(keys, acc, e) == Categories(p + [e])
    ensures forall c :: c in AddToTally(acc, e) <==> c in AddKey(keys, acc, e)
  {
    CategoriesSnoc(p, e);
  }

  lemma TallyValuesStep(p: seq<Expense>, e: Expense, keys: seq<Category>, acc: map<Category, int>)
    requires Tallied(p, keys, acc)
    ensures forall c :: c in AddToTally(acc, e) ==> AddToTally(acc, e)[c] == CategorySpent(p + [e], c)
  {
    var acc' := AddToTally(acc, e);
    if e.category !in acc {
      CategoriesMembership(p, e.category);
      CategorySpentOfAbsent(p, e.category);
    }
    forall c | c in acc' ensures acc'[c] == CategorySpent(p + [e], c) {
      CategorySpentAppend(p, e, c);
    }
  }

  /** One step of the `reduce` over `es[i]`: `acc[c] = (acc[c] || 0) + amount`,
      where a new key goes after the existing ones. */
  lemma TallyStep(p: seq<Expense>, e: Expense, keys: seq<Category>, acc: map<Category, int>)
    requires Tallied(p, keys, acc)
    ensures Tallied(p + [e], AddKey(keys, acc, e), AddToTally(acc, e))
  {
    TallyKeysStep(p, e, keys, acc);
    TallyValuesStep(p, e, keys, acc);
  }

  /** The `reduce` into an accumulator record: its keys, in insertion
      order, and the total of each. */
  method Tally(es: seq<Expense>) returns (keys: seq<Category>, acc: map<Category, int>)
    ensures Tallied(es, keys, acc)
  {
    keys, acc := [], map[];
    for i := 0 to |es|
      invariant Tallied(es[..i], keys, acc)
    {
      var e := es[i];
      assert es[..i + 1] == es[..i] + [e];
      TallyStep(es[..i], e, keys, acc);
      keys := AddKey(keys, acc, e);
      acc := AddToTally(acc, e);
    }
    assert es[..|es|] == es;
  }

  /** `categoryBreakdown`: the tally's entries as `{ name, value }` rows. */
  method BuildCategoryBreakdown(es: seq<Expense>) returns (r: seq<CategoryTotal>)
    ensures r == CategoryBreakdown(es)
  {
    var keys, acc := Tally(es);
    r := [];
    for k := 0 to |keys|
      invariant |r| == k
      invariant forall i :: 0 <= i < k ==> r[i] == CategoryTotal(keys[i], CategorySpent(es, keys[i]))
    {
      TalliedValue(es, keys, acc, k);
      r := r + [CategoryTotal(keys[k], acc[keys[k]])];
    }
    RowsPointwise(es, keys, r);
  }

  /** A list with `Rows`' entries is `Rows`. */
  lemma RowsPointwise(es: seq<Expense>, cs: seq<Category>, r: seq<CategoryTotal>)
    requires |r| == |cs|
    requires forall i :: 0 <= i < |cs| ==> r[i] == CategoryTotal(cs[i], CategorySpent(es, cs[i]))
    ensures r == Rows(es, cs)
  {
  }

  lemma TalliedValue(p: seq<Expense>, keys: seq<Category>, acc: map<Category, int>, k: int)
    requires Tallied(p, keys, acc) && 0 <= k < |keys|
    ensures keys[k] in acc && acc[keys[k]] == CategorySpent(p, keys[k])
  {
  }

  /** Each category of the breakdown occurs in `es` before the first
      occurrence of every category listed after it. */
  lemma {:induction false} BreakdownInFirstOccurrenceOrder(es: seq<Expense>, i: int, j: int)
    requires 0 <= i < j < |CategoryBreakdown(es)|
    ensures exists k :: (0 <= k < |es| && es[k].category == CategoryBreakdown(es)[i].name
      && forall m :: 0 <= m <= k ==> es[m].category != CategoryBreakdown(es)[j].name)
  {
    CategoriesInFirstOccurrenceOrder(es, i, j);
  }

  lemma {:induction false} CategoriesInFirstOccurrenceOrder(es: seq<Expense>, i: int, j: int)
    requires 0 <= i < j < |Categories(es)|
    ensures exists k :: (0 <= k < |es| && es[k].category == Categories(es)[i]
      && forall m :: 0 <= m <= k ==> es[m].category != Categories(es)[j])
  {
    var p, e := es[..|es| - 1], es[|es| - 1];
    var cp, cs := Categories(p), Categories(es);
    assert forall k :: 0 <= k < |p| ==> es[k] == p[k];
    if j < |cp| {
      assert cs[..|cp|] == cp;
      CategoriesInFirstOccurrenceOrder(p, i, j);
      var k :| 0 <= k < |p| && p[k].category == cp[i]
        && forall m :: 0 <= m <= k ==> p[m].category != cp[j];
      assert es[k].category == cs[i];
    } else {
      assert cs == cp + [e.category] && cs[j] == e.category;
      assert cs[i] in cp;
      CategoriesMembership(p, cs[i]);
      CategoriesMembership(p, e.category);
      var k :| 0 <= k < |p| && p[k].category == cp[i];
      assert es[k].category == cs[i];
    }
  }

  /** Each row's value is the sum of its category's amounts, and a category
      has a row exactly when some expense has it. */
  lemma BreakdownIsGrouping(es: seq<Expense>, c: Category)
    ensures (exists i :: 0 <= i < |CategoryBreakdown(es)| && CategoryBreakdown(es)[i].name == c)
        <==> (exists k :: 0 <= k < |es| && es[k].category == c)
    ensures forall i :: (0 <= i < |CategoryBreakdown(es)| && CategoryBreakdown(es)[i].name == c
        ==> CategoryBreakdown(es)[i].value == CategorySpent(es, c))
    ensures Distinct(Categories(es))
  {
    var cs := Categories(es);
    CategoriesDistinct(es);
    CategoriesMembership(es, c);
    if exists k :: 0 <= k < |es| && es[k].category == c {
      assert c in cs;
      var i :| 0 <= i < |cs| && cs[i] == c;
      assert CategoryBreakdown(es)[i].name == c;
    } else {
      forall i | 0 <= i < |cs| ensures cs[i] != c {
        assert cs[i] in cs;
      }
    }
  }

  lemma {:induction false} RowsOfNoExpenses(cs: seq<Category>)
    ensures SumValues(Rows([], cs)) == 0
  {
    if cs != [] {
      RowsOfNoExpenses(cs[..|cs| - 1]);
    }
  }

  lemma {:induction false} RowsSumAppend(es: seq<Expense>, e: Expense, cs: seq<Category>)
    requires Distinct(cs)
    ensures SumValues(Rows(es + [e], cs)) == SumValues(Rows(es, cs)) + (if e.category in cs then e.amount else 0)
  {
    if cs != [] {
      var p, c := cs[..|cs| - 1], cs[|cs| - 1];
      assert cs == p + [c];
      RowsSumAppend(es, e, p);
      CategorySpentAppend(es, e, c);
      var before, after := Rows(es, cs), Rows(es + [e], cs);
      assert before[..|before| - 1] == Rows(es, p);
      assert after[..|after| - 1] == Rows(es + [e], p);
      assert e.category == c ==> e.category !in p;
    }
  }

  /** The expenses whose category is one of `cs`. */
  function InCategories(es: seq<Expense>, cs: seq<Category>): seq<Expense>
  {
    if es == [] then []
    else InCategories(es[..|es| - 1], cs) + (if es[|es| - 1].category in cs then [es[|es| - 1]] else [])
  }

  lemma {:induction false} RowsSumIsTotalOfCategories(es: seq<Expense>, cs: seq<Category>)
    requires Distinct(cs)
    ensures SumValues(Rows(es, cs)) == TotalSpent(InCategories(es, cs))
  {
    if es == [] {
      RowsOfNoExpenses(cs);
    } else {
      var p, e := es[..|es| - 1], es[|es| - 1];
      assert es == p + [e];
      RowsSumIsTotalOfCategories(p, cs);
      RowsSumAppend(p, e, cs);
      if e.category in cs {
        assert InCategories(es, cs) == InCategories(p, cs) + [e];
        TotalSpentAppend(InCategories(p, cs), e);
      } else {
        assert InCategories(es, cs) == InCategories(p, cs);
      }
    }
  }

  lemma {:induction false} InCategoriesOfAll(es: seq<Expense>, cs: seq<Category>)
    requires forall k :: 0 <= k < |es| ==> es[k].category in cs
    ensures InCategories(es, cs) == es
  {
    if es != [] {
      InCategoriesOfAll(es[..|es| - 1], cs);
    }
  }

  /** The breakdown's values add up to the month's total spending. */
  lemma BreakdownSumsToTotal(es: seq<Expense>)
    ensures SumValues(CategoryBreakdown(es)) == TotalSpent(es)
  {
    var cs := Categories(es);
    CategoriesDistinct(es);
    RowsSumIsTotalOfCategories(es, cs);
    forall k | 0 <= k < |es| ensures es[k].category in cs {
      CategoriesMembership(es, es[k].category);
    }
    InCategoriesOfAll(es, cs);
  }

  lemma {:induction false} DistinctBounded(cs: seq<Category>, s: set<Category>)
    requires Distinct(cs) && forall i :: 0 <= i < |cs| ==> cs[i] in s
    ensures |cs| <= |s|
  {
    if cs != [] {
      var c := cs[|cs| - 1];
      DistinctBounded(cs[..|cs| - 1], s - {c});
    }
  }

  /** There are at most five rows, one per category, and none exactly when
      there are no expenses. */
  lemma BreakdownSize(es: seq<Expense>)
    ensures |CategoryBreakdown(es)| <= 5
    ensures |CategoryBreakdown(es)| == 0 <==> |es| == 0
  {
    var all := {Shopping, Food, Transport, Rent, Other};
    assert |all| == 5;
    var cs := Categories(es);
    forall i | 0 <= i < |cs| ensures cs[i] in all {
      match cs[i]
      case Shopping =>
      case Food =>
      case Transport =>
      case Rent =>
      case Other =>
    }
    CategoriesDistinct(es);
    DistinctBounded(cs, all);
    if |es| > 0 {
      CategoriesMembership(es, es[0].category);
    }
  }

  /** A worked example: two food expenses and one for
      transport group into two rows in first-occurrence order. */
  lemma GroupingScenario(a: Expense, b: Expense, c: Expense)
    requires a.category == Food && a.amount == 100
    requires b.category == Food && b.amount == 50
    requires c.category == Transport && c.amount == 30
    ensures CategoryBreakdown([a, b, c]) == [CategoryTotal(Food, 150), CategoryTotal(Transport, 30)]
  {
    var e0: seq<Expense> := [];
    var e1, e2, e3 := e0 + [a], e0 + [a] + [b], e0 + [a] + [b] + [c];
    assert e3 == [a, b, c];
    assert Categories(e0) == [] && CategorySpent(e0, Food) == 0 && CategorySpent(e0, Transport) == 0;
    CategoriesSnoc(e0, a);
    CategoriesSnoc(e1, b);
    CategoriesSnoc(e2, c);
    var keys := Categories(e3);
    assert keys == [Food, Transport];
    CategorySpentAppend(e0, a, Food);
    CategorySpentAppend(e1, b, Food);
    CategorySpentAppend(e2, c, Food);
    assert CategorySpent(e3, Food) == 150;
    CategorySpentAppend(e0, a, Transport);
    CategorySpentAppend(e1, b, Transport);
    CategorySpentAppend(e2, c, Transport);
    assert CategorySpent(e3, Transport) == 30;
    var rows := Rows(e3, keys);
    assert |rows| == 2 && rows[0] == CategoryTotal(Food, 150) && rows[1] == CategoryTotal(Transport, 30);
  }
}
