/** The dashboard: the four stat cards, the monthly usage bar, and the top
    five categories. The top-five list sorts the shared breakdown array in
    place. Today's date is a parameter. */
module Dashboard {
  import opened Js
  import opened Finance
  import opened Colours
  import opened DateUtils
  import opened Summaries

  /** `weeklySummaries[currentWeek - 1]`, `undefined` (`None`) out of bounds.
      What the lookup finds in the store is stated by `CurrentWeekIsFound`. */
  function CurrentWeekSummary(summaries: seq<WeeklySummary>, currentWeek: int): (r: Option<WeeklySummary>)
    ensures r.Some? <==> 1 <= currentWeek <= |summaries|
    ensures r.Some? ==> r.value == summaries[currentWeek - 1]
  {
    if 1 <= currentWeek <= |summaries| then Some(summaries[currentWeek - 1]) else None
  }

  /** `currentWeekSummary?.remaining || 0`. */
  function ThisWeekRemaining(current: Option<WeeklySummary>): int
  {
    match current
    case Some(s) => s.remaining
    case None => 0
  }

  /** Today's week is always found among the store's four summaries, so the
      card shows that week's allocation minus what was spent in it. */
  lemma CurrentWeekIsFound(b: Budget, es: seq<Expense>, cal: Calendar, today: string)
    ensures var w := GetCurrentWeekOfMonth(cal, today);
      var current := CurrentWeekSummary(WeeklySummaries(b, es), w);
      && current.Some? && current.value.week == w
      && ThisWeekRemaining(current) == Allocated(b.weeks, w) - SpentInWeek(es, w)
  {
    var w := GetCurrentWeekOfMonth(cal, today);
    assert 0 <= w - 1 < 4;
  }

  /** The "This Week Remaining" card is purple unless the amount is negative. */
  function ThisWeekCardColour(current: Option<WeeklySummary>): (c: Colour)
    ensures c == Purple || c == Red
    ensures c == Red <==> current.Some? && current.value.remaining < 0
  {
    if ThisWeekRemaining(current) >= 0 then Purple else Red
  }

  /** The "Remaining" card is green when `totalRemaining >= 0`, else red. */
  function RemainingCardColour(m: MonthlySummary): Colour
  {
    if m.totalRemaining >= 0 then Green else Red
  }

  lemma RemainingCardGreenIffWithinBudget(b: Budget, es: seq<Expense>)
    ensures RemainingCardColour(MonthlySummaryOf(b, es)) == Green <==> TotalSpent(es) <= b.monthly
    ensures RemainingCardColour(MonthlySummaryOf(b, es)) != Green ==> RemainingCardColour(MonthlySummaryOf(b, es)) == Red
  {
  }

  /** The usage bar: red above 100 percent, yellow above 80, else blue. A
      NaN usage fails both comparisons and is blue. */
  function UsageColour(usage: Num): Colour
  {
    if Greater(usage, 100.0) then Red
    else if Greater(usage, 80.0) then Yellow
    else Blue
  }

  /** `Math.min(usagePercentage, 100)`. */
  function UsageBarWidth(usage: Num): (r: Num)
    ensures !Greater(r, 100.0)
  {
    Min(usage, 100.0)
  }

  /** Over a non-negative monthly budget the band follows the amounts: red
      exactly when more than the budget is spent, yellow exactly when more
      than 80 percent but not more than the budget is spent. A zero budget
      with some spending is red (the usage is +Infinity). */
  lemma UsageColourOfSummary(b: Budget, es: seq<Expense>)
    requires b.monthly >= 0
    ensures var c := UsageColour(MonthlySummaryOf(b, es).usagePercentage);
      && (c == Red <==> TotalSpent(es) > b.monthly)
      && (c == Yellow <==> TotalSpent(es) <= b.monthly && 100 * TotalSpent(es) > 80 * b.monthly)
  {
    var spent := TotalSpent(es);
    PercentExceeds(spent, b.monthly, 100.0);
    PercentExceeds(spent, b.monthly, 80.0);
  }

  /** A usage beyond the budget fills the bar. */
  lemma OverBudgetFillsBar(b: Budget, es: seq<Expense>)
    requires b.monthly >= 0 && TotalSpent(es) > b.monthly
    ensures UsageBarWidth(MonthlySummaryOf(b, es).usagePercentage) == Finite(100.0)
  {
    PercentExceeds(TotalSpent(es), b.monthly, 100.0);
  }

  /** The properties every object literal inherits from `Object.prototype`. */
  const InheritedNames: set<string> := {"constructor", "hasOwnProperty", "isPrototypeOf",
    "propertyIsEnumerable", "toLocaleString", "toString", "valueOf", "__proto__",
    "__defineGetter__", "__defineSetter__", "__lookupGetter__", "__lookupSetter__"}

  /** What `iconMap[name] || iconMap.Other` yields: the entry of a category,
      or an inherited member, which is truthy but has no `icon` or `color`. */
  datatype IconLookup = Entry(category: Category) | Inherited

  /** `getCategoryIcon(name)`: the entry for the name, Other's for a name
      that is neither a category nor inherited, and the inherited member
      for an inherited name, where `||` does not fall back. */
  function IconFor(name: string): (r: IconLookup)
    ensures r.Inherited? <==> name in InheritedNames
    ensures r.Entry? ==> CategoryName(r.category) == name || (r.category == Other && forall c :: CategoryName(c) != name)
  {
    match CategoryNamed(name)
    case Some(c) => Entry(c)
    case None => if name in InheritedNames then Inherited else Entry(Other)
  }

  lemma IconForCategory(c: Category)
    ensures IconFor(CategoryName(c)) == Entry(c)
  {
    CategoryNameRoundTrip(c);
  }

  /** The top-categories section is shown when the breakdown is non-empty,
      that is, when at least one expense is stored. */
  predicate TopCategoriesShown(breakdown: seq<CategoryTotal>)
  {
    |breakdown| > 0
  }

  lemma TopCategoriesShownIffExpenses(es: seq<Expense>)
    ensures TopCategoriesShown(CategoryBreakdown(es)) <==> |es| > 0
  {
    BreakdownSize(es);
  }

  predicate ValueDescending(s: seq<CategoryTotal>)
  {
    forall p, q :: 0 <= p < q < |s| ==> s[p].value >= s[q].value
  }

  /** `breakdown.sort((a, b) => b.value - a.value)`: reorders the array in
      place into descending order of value. */
  method SortByValueDesc(a: array<CategoryTotal>)
    modifies a
    ensures ValueDescending(a[..])
    ensures multiset(a[..]) == multiset(old(a[..]))
  {
    var i := 0;
    while i < a.Length
      invariant 0 <= i <= a.Length
      invariant ValueDescending(a[..i])
      invariant multiset(a[..]) == multiset(old(a[..]))
    {
      InsertAt(a, i);
      i := i + 1;
    }
    assert a[..a.Length] == a[..];
  }

  /** One insertion step: moves `a[i]` towards the front past every smaller
      entry, so that `a[..i + 1]` is in descending order. */
  method InsertAt(a: array<CategoryTotal>, i: int)
    requires 0 <= i < a.Length && ValueDescending(a[..i])
    modifies a
    ensures ValueDescending(a[..i + 1])
    ensures multiset(a[..]) == multiset(old(a[..]))
  {
    var j := i;
    SinkingStart(a[..], i);
    while j > 0 && a[j - 1].value < a[j].value
      invariant 0 <= j <= i
      invariant multiset(a[..]) == multiset(old(a[..]))
      invariant Sinking(a[..], i, j)
    {
      ghost var s := a[..];
      a[j - 1], a[j] := a[j], a[j - 1];
      assert a[..] == Swap(s, j);
      SwapStep(s, i, j);
      j := j - 1;
    }
    SinkingDone(a[..], i, j);
  }

  /** `s` with the entries at `j - 1` and `j` exchanged. */
  function Swap(s: seq<CategoryTotal>, j: int): (r: seq<CategoryTotal>)
    requires 0 < j < |s|
    ensures |r| == |s| && r[j - 1] == s[j] && r[j] == s[j - 1]
    ensures forall k :: 0 <= k < |s| && k != j - 1 && k != j ==> r[k] == s[k]
    ensures multiset(r) == multiset(s)
  {
    s[j - 1 := s[j]][j := s[j - 1]]
  }

  /** While the entry that started at `i` moves to the front it sits at `j`:
      the other entries of `s[..i + 1]` are in descending order, and the
      entries it has passed are all smaller than it. */
  predicate Sinking(s: seq<CategoryTotal>, i: int, j: int)
  {
    && 0 <= j <= i < |s|
    && (forall p, q :: 0 <= p < q <= i && p != j && q != j ==> s[p].value >= s[q].value)
    && (forall q :: j < q <= i ==> s[j].value > s[q].value)
  }

  lemma SinkingStart(s: seq<CategoryTotal>, i: int)
    requires 0 <= i < |s| && ValueDescending(s[..i])
    ensures Sinking(s, i, i)
  {
    forall p, q | 0 <= p < q <= i && p != i && q != i ensures s[p].value >= s[q].value {
      assert s[..i][p] == s[p] && s[..i][q] == s[q];
    }
  }

  lemma SwapStep(s: seq<CategoryTotal>, i: int, j: int)
    requires 0 < j && Sinking(s, i, j) && s[j - 1].value < s[j].value
    ensures Sinking(Swap(s, j), i, j - 1)
  {
    var r := Swap(s, j);
    forall p, q | 0 <= p < q <= i && p != j - 1 && q != j - 1 ensures r[p].value >= r[q].value {
      if q == j {
        assert r[q] == s[j - 1];
        if p < j - 1 {
          assert s[p].value >= s[j - 1].value;
        }
      } else if p == j {
        assert r[p] == s[j - 1] && r[q] == s[q];
        assert s[j - 1].value < s[j].value && s[j].value > s[q].value;
        if j - 1 < q {
          assert s[j - 1].value >= s[q].value;
        }
      }
    }
  }

  lemma SinkingDone(s: seq<CategoryTotal>, i: int, j: int)
    requires Sinking(s, i, j) && (j == 0 || s[j - 1].value >= s[j].value)
    ensures ValueDescending(s[..i + 1])
  {
    var t := s[..i + 1];
    forall p, q | 0 <= p < q < |t| ensures t[p].value >= t[q].value {
      if q == j && p < j - 1 {
        assert s[p].value >= s[j - 1].value;
      }
    }
  }

  /** The top-categories list: sorts the breakdown in place, then takes
      its first five entries, which are the largest. */
  method TopCategories(a: array<CategoryTotal>) returns (top: seq<CategoryTotal>)
    modifies a
    ensures multiset(a[..]) == multiset(old(a[..]))
    ensures ValueDescending(a[..])
    ensures |top| == (if a.Length < 5 then a.Length else 5) && top == a[..|top|]
    ensures forall k, m :: 0 <= k < |top| <= m < a.Length ==> top[k].value >= a[m].value
  {
    SortByValueDesc(a);
    top := a[..if a.Length < 5 then a.Length else 5];
  }
}
