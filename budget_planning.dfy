/** The budget-planning form: five text fields (the monthly budget and the
    four weekly allocations) that are parsed with `parseFloat`, an automatic
    even split of the monthly budget, and saving the parsed values as the
    store's budget. */
module BudgetPlanning {
  import opened Js
  import opened Finance
  import Store

  /** The four weekly input fields, as typed. */
  datatype WeeklyInputs = WeeklyInputs(week1: string, week2: string, week3: string, week4: string)

  /** `parseFloat(value) || 0`: an unparseable field counts as zero.
      What a save does with the fields is stated by `BudgetFromForm` and
      `SaveUntouchedFormKeepsBudget`. */
  function FieldValue(s: string): (v: int)
    ensures ParseFloat(s) == Some(v) || (ParseFloat(s) == None && v == 0)
  {
    OrZero(ParseFloat(s))
  }

  /** `Object.values(weeklyBudgets).reduce((sum, v) => sum + (parseFloat(v) || 0), 0)`. */
  function TotalWeeklyBudget(w: WeeklyInputs): int
  {
    ((FieldValue(w.week1) + FieldValue(w.week2)) + FieldValue(w.week3)) + FieldValue(w.week4)
  }

  /** `totalWeeklyBudget > parseFloat(monthlyBudget)`: false whenever the
      monthly field does not parse, since every comparison with NaN is false. */
  predicate IsOverBudget(monthly: string, w: WeeklyInputs)
  {
    match ParseFloat(monthly)
    case Some(m) => TotalWeeklyBudget(w) > m
    case None => false
  }

  /** `parseFloat(monthlyBudget) - totalWeeklyBudget`; NaN (`None`) when the
      monthly field does not parse. */
  function Unallocated(monthly: string, w: WeeklyInputs): (r: Option<int>)
    ensures r.Some? <==> ParseFloat(monthly).Some?
    ensures r.Some? ==> r.value + TotalWeeklyBudget(w) == ParseFloat(monthly).value
  {
    match ParseFloat(monthly)
    case Some(m) => Some(m - TotalWeeklyBudget(w))
    case None => None
  }

  /** The over-budget warning shows exactly when the unallocated amount is
      a negative number. (An unparseable monthly field makes the amount NaN,
      which is shown in red without the warning.) */
  lemma OverBudgetIffUnallocatedNegative(monthly: string, w: WeeklyInputs)
    ensures IsOverBudget(monthly, w) <==> Unallocated(monthly, w).Some? && Unallocated(monthly, w).value < 0
  {
  }

  /** The auto-distribute split: weeks 1-3 get `Math.floor(monthly / 4)` and
      week 4 gets the rest. */
  function Distribution(monthly: int): (weeks: Weeks)
    ensures weeks.week1 == weeks.week2 == weeks.week3
    ensures 4 * weeks.week1 <= monthly < 4 * weeks.week1 + 4
    ensures WeeksTotal(weeks) == monthly
    ensures weeks.week4 - weeks.week1 == monthly % 4
    ensures 0 <= weeks.week4 - weeks.week1 <= 3
  {
    var perWeek := monthly / 4;
    Weeks(perWeek, perWeek, perWeek, monthly - perWeek * 3)
  }

  /** The fields the form shows for a set of weekly amounts: `toString()`. */
  function InputsOf(weeks: Weeks): WeeklyInputs
  {
    WeeklyInputs(IntToString(weeks.week1), IntToString(weeks.week2), IntToString(weeks.week3), IntToString(weeks.week4))
  }

  /** Fields written by `toString` read back as the amounts they show. */
  lemma TotalOfInputsOf(weeks: Weeks)
    ensures TotalWeeklyBudget(InputsOf(weeks)) == WeeksTotal(weeks)
  {
    ParseIntToString(weeks.week1);
    ParseIntToString(weeks.week2);
    ParseIntToString(weeks.week3);
    ParseIntToString(weeks.week4);
  }

  /** The budget that save hands to `updateBudget`: every field parsed, an
      unparseable field becoming 0. */
  function BudgetFromForm(monthly: string, w: WeeklyInputs): (b: Budget)
    ensures ParseFloat(monthly) == Some(b.monthly) || (ParseFloat(monthly) == None && b.monthly == 0)
    ensures ParseFloat(w.week1) == Some(b.weeks.week1) || (ParseFloat(w.week1) == None && b.weeks.week1 == 0)
    ensures ParseFloat(w.week2) == Some(b.weeks.week2) || (ParseFloat(w.week2) == None && b.weeks.week2 == 0)
    ensures ParseFloat(w.week3) == Some(b.weeks.week3) || (ParseFloat(w.week3) == None && b.weeks.week3 == 0)
    ensures ParseFloat(w.week4) == Some(b.weeks.week4) || (ParseFloat(w.week4) == None && b.weeks.week4 == 0)
    ensures WeeksTotal(b.weeks) == TotalWeeklyBudget(w)
  {
    Budget(FieldValue(monthly), Weeks(FieldValue(w.week1), FieldValue(w.week2), FieldValue(w.week3), FieldValue(w.week4)))
  }

  /** Saving a form that still shows the stored budget stores that same budget. */
  lemma SaveUntouchedFormKeepsBudget(b: Budget)
    ensures BudgetFromForm(IntToString(b.monthly), InputsOf(b.weeks)) == b
  {
    ParseIntToString(b.monthly);
    ParseIntToString(b.weeks.week1);
    ParseIntToString(b.weeks.week2);
    ParseIntToString(b.weeks.week3);
    ParseIntToString(b.weeks.week4);
  }

  /** After auto-distribute the weekly total is exactly the monthly field read
      as `parseFloat(…) || 0`, so the over-budget warning is off and, when the
      monthly field parses, nothing is left unallocated. An empty or
      non-numeric monthly field is spread as 0 and leaves NaN unallocated. */
  lemma AutoDistributeIsWithinBudget(monthly: string)
    ensures TotalWeeklyBudget(InputsOf(Distribution(FieldValue(monthly)))) == FieldValue(monthly)
    ensures !IsOverBudget(monthly, InputsOf(Distribution(FieldValue(monthly))))
    ensures ParseFloat(monthly).Some? ==> Unallocated(monthly, InputsOf(Distribution(FieldValue(monthly)))) == Some(0)
  {
    var d := Distribution(FieldValue(monthly));
    TotalOfInputsOf(d);
    assert WeeksTotal(d) == FieldValue(monthly);
  }

  /** A week's share of the monthly budget in percent:
      `parseFloat(monthly) > 0 ? (amount / parseFloat(monthly)) * 100 : 0`. */
  function Share(amount: int, monthly: Option<int>): (r: real)
    ensures monthly.None? || monthly.value <= 0 ==> r == 0.0
    ensures monthly.Some? && monthly.value > 0 ==> r * monthly.value as real == amount as real * 100.0
  {
    match monthly
    case Some(m) => GuardedPercent(amount, m)
    case None => 0.0
  }

  function WeekShare(week: string, monthly: string): real
  {
    Share(FieldValue(week), ParseFloat(monthly))
  }

  /** Amounts that add up to a positive monthly budget have shares that
      add up to 100 percent. */
  lemma SharesSumToHundred(a1: int, a2: int, a3: int, a4: int, m: int)
    requires m > 0 && a1 + a2 + a3 + a4 == m
    ensures Share(a1, Some(m)) + Share(a2, Some(m)) + Share(a3, Some(m)) + Share(a4, Some(m)) == 100.0
  {
    var s1, s2, s3, s4 := Share(a1, Some(m)), Share(a2, Some(m)), Share(a3, Some(m)), Share(a4, Some(m));
    var w := m as real;
    assert (s1 + s2 + s3 + s4) * w == (a1 + a2 + a3 + a4) as real * 100.0;
    assert (a1 + a2 + a3 + a4) as real == w;
    assert (s1 + s2 + s3 + s4 - 100.0) * w == 0.0;
  }

  /** After auto-distribute on a positive monthly budget the four shares
      add up to 100 percent. */
  lemma AutoDistributeSharesSumToHundred(monthly: string)
    requires FieldValue(monthly) > 0
    ensures var w := InputsOf(Distribution(FieldValue(monthly)));
      WeekShare(w.week1, monthly) + WeekShare(w.week2, monthly) + WeekShare(w.week3, monthly) + WeekShare(w.week4, monthly) == 100.0
  {
    var m := FieldValue(monthly);
    var d := Distribution(m);
    ParseIntToString(d.week1);
    ParseIntToString(d.week4);
    assert ParseFloat(monthly) == Some(m);
    SharesSumToHundred(d.week1, d.week2, d.week3, d.week4, m);
  }

  /** The form's state: the monthly field and the four weekly fields. */
  class BudgetPlanningForm {
    var monthlyBudget: string
    var weeklyBudgets: WeeklyInputs

    /** The form opens showing the stored budget. */
    constructor (b: Budget)
      ensures monthlyBudget == IntToString(b.monthly) && weeklyBudgets == InputsOf(b.weeks)
    {
      monthlyBudget := IntToString(b.monthly);
      weeklyBudgets := InputsOf(b.weeks);
    }

    /** `handleAutoDistribute`: rewrites the four weekly fields with the even
        split of the parsed monthly value; the monthly field is untouched. */
    method HandleAutoDistribute()
      modifies this
      ensures monthlyBudget == old(monthlyBudget)
      ensures weeklyBudgets == InputsOf(Distribution(FieldValue(monthlyBudget)))
      ensures !IsOverBudget(monthlyBudget, weeklyBudgets)
    {
      var weeks := Distribution(FieldValue(monthlyBudget));
      weeklyBudgets := InputsOf(weeks);
      AutoDistributeIsWithinBudget(monthlyBudget);
    }

    /** `handleSave`: replaces the store's budget with the parsed form. */
    method HandleSave(store: Store.FinanceStore)
      modifies store
      ensures store.budget == BudgetFromForm(monthlyBudget, weeklyBudgets)
      ensures store.expenses == old(store.expenses)
    {
      var newBudget := BudgetFromForm(monthlyBudget, weeklyBudgets);
      store.UpdateBudget(newBudget);
    }
  }
}
