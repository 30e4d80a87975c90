/** The add-expense form: four fields (amount, category, notes, date), a
    submit handler that checks the amount, hands a draft to the store and
    resets the form, a reset handler, and the weekly status bars shown
    beside the form. Today's date comes in as a parameter. */
module AddExpense {
  import opened Js
  import opened Finance
  import opened DateUtils
  import opened Summaries
  import opened Store

  /** The characters `String.prototype.trim` removes: white space and line
      terminators. */
  predicate IsSpace(c: char)
  {
    c == '\t' || c == '\n' || c == '\U{B}' || c == '\U{C}' || c == '\r' || c == ' '
    || c == '\U{A0}' || c == '\U{1680}' || ('\U{2000}' <= c <= '\U{200A}')
    || c == '\U{2028}' || c == '\U{2029}' || c == '\U{202F}' || c == '\U{205F}'
    || c == '\U{3000}' || c == '\U{FEFF}'
  }

  function TrimStart(s: string): (r: string)
    ensures |r| <= |s| && r == s[|s| - |r|..]
    ensures |r| > 0 ==> !IsSpace(r[0])
    ensures forall i :: 0 <= i < |s| - |r| ==> IsSpace(s[i])
  {
    if |s| > 0 && IsSpace(s[0]) then TrimStart(s[1..]) else s
  }

  function TrimEnd(s: string): (r: string)
    ensures |r| <= |s| && r == s[..|r|]
    ensures |r| > 0 ==> !IsSpace(r[|r| - 1])
    ensures forall i :: |r| <= i < |s| ==> IsSpace(s[i])
  {
    if |s| > 0 && IsSpace(s[|s| - 1]) then TrimEnd(s[..|s| - 1]) else s
  }

  /** `s.trim()`. */
  function Trim(s: string): string
  {
    TrimEnd(TrimStart(s))
  }

  lemma SliceOfSuffix(s: string, i: int, n: int)
    requires 0 <= i <= |s| && 0 <= n <= |s| - i
    ensures s[i..][..n] == s[i..i + n]
  {
  }

  /** The trimmed string is a contiguous piece of `s`. */
  lemma TrimIsSlice(s: string)
    ensures var r := Trim(s);
      var i := |s| - |TrimStart(s)|;
      i + |r| <= |s| && r == s[i..i + |r|]
  {
    var t := TrimStart(s);
    var r := TrimEnd(t);
    var i := |s| - |t|;
    assert t == s[i..] && r == t[..|r|];
    SliceOfSuffix(s, i, |r|);
  }

  /** Everything `trim` cuts away at the end is white space. */
  lemma TrimDropsTrailingSpace(s: string)
    ensures var r := Trim(s);
      var i := |s| - |TrimStart(s)|;
      forall k :: i + |r| <= k < |s| ==> IsSpace(s[k])
  {
    var t := TrimStart(s);
    var r := TrimEnd(t);
    var i := |s| - |t|;
    assert t == s[i..];
    forall k | i + |r| <= k < |s| ensures IsSpace(s[k]) {
      assert s[k] == t[k - i];
    }
  }

  /** The trimmed string is a contiguous piece of `s` that neither starts
      nor ends with white space, everything cut away being white space. */
  lemma TrimCutsSpace(s: string)
    ensures var r := Trim(s);
      var i := |s| - |TrimStart(s)|;
      && i + |r| <= |s| && r == s[i..i + |r|]
      && (forall k :: 0 <= k < i ==> IsSpace(s[k]))
      && (forall k :: i + |r| <= k < |s| ==> IsSpace(s[k]))
      && (|r| > 0 ==> !IsSpace(r[0]) && !IsSpace(r[|r| - 1]))
  {
    TrimIsSlice(s);
    TrimDropsTrailingSpace(s);
    var t := TrimStart(s);
    var r := TrimEnd(t);
    if |r| > 0 {
      assert r[0] == t[0];
    }
  }

  lemma {:induction false} TrimStartOfTrimmed(s: string)
    requires |s| == 0 || !IsSpace(s[0])
    ensures TrimStart(s) == s
  {
  }

  lemma {:induction false} TrimEndOfTrimmed(s: string)
    requires |s| == 0 || !IsSpace(s[|s| - 1])
    ensures TrimEnd(s) == s
  {
  }

  /** Trimming twice is trimming once. */
  lemma TrimIdempotent(s: string)
    ensures Trim(Trim(s)) == Trim(s)
  {
    var r := Trim(s);
    TrimCutsSpace(s);
    TrimStartOfTrimmed(r);
    TrimEndOfTrimmed(r);
  }

  /** The values of the amount's `<input type="number">` that the model
      covers: the empty string (which the input also reports for text that
      is not a number) or a whole number of rupees, optionally signed. */
  predicate NumberInputValue(amount: string)
  {
    amount == "" || WholeNumberText(amount)
  }

  /** The submit guard as written: `!amount || parseFloat(amount) <= 0`. */
  predicate RejectsAmount(amount: string)
  {
    amount == "" || (ParseFloat(amount).Some? && ParseFloat(amount).value <= 0)
  }

  /** The guard lets a non-empty amount that does not parse through, since
      `NaN <= 0` is false. */
  lemma UnparseableAmountPassesGuard()
    ensures ParseFloat("abc").None? && !RejectsAmount("abc")
  {
    ParseWithoutDigits("abc");
  }

  /** On those values the guard accepts exactly the amounts that parse to
      a positive number, and an empty field is rejected. */
  lemma GuardOnNumberInput(amount: string)
    requires NumberInputValue(amount)
    ensures !RejectsAmount(amount) <==> ParseFloat(amount).Some? && ParseFloat(amount).value > 0
    ensures amount == "" ==> RejectsAmount(amount)
  {
    if amount != "" {
      ParseWholeNumber(amount);
    }
  }

  /** The draft a valid submit hands to `addExpense`. */
  function DraftOf(amount: string, category: Category, notes: string, date: string): (d: Draft)
    requires ParseFloat(amount).Some?
    ensures d.amount == ParseFloat(amount).value && d.category == category && d.date == date
    ensures d.notes == Trim(notes)
  {
    Draft(ParseFloat(amount).value, category, Trim(notes), date)
  }

  /** The add-expense form's four fields. */
  class AddExpenseForm {
    var amount: string
    var category: Category
    var notes: string
    var date: string

    /** The form opens empty, on category Other and today's date. */
    constructor (today: string)
      ensures amount == "" && category == Other && notes == "" && date == today
    {
      amount, category, notes, date := "", Other, "", today;
    }

    /** `handleSubmit`: a rejected amount changes nothing; otherwise exactly
        one expense is added, built from the parsed amount, the category,
        the trimmed notes and the date, and the form is reset. */
    method HandleSubmit(store: FinanceStore, id: string, cal: Calendar, today: string) returns (added: bool)
      requires NumberInputValue(amount)
      modifies this, store
      ensures added <==> ParseFloat(old(amount)).Some? && ParseFloat(old(amount)).value > 0
      ensures store.budget == old(store.budget)
      ensures !added ==> store.expenses == old(store.expenses)
      ensures !added ==> amount == old(amount) && category == old(category) && notes == old(notes) && date == old(date)
      ensures added ==> store.expenses == old(store.expenses) + [NewExpense(DraftOf(old(amount), old(category), old(notes), old(date)), id, cal)]
      ensures added ==> amount == "" && category == Other && notes == "" && date == today
    {
      GuardOnNumberInput(amount);
      if RejectsAmount(amount) {
        return false;
      }
      store.AddExpense(Draft(ParseFloat(amount).value, category, Trim(notes), date), id, cal);
      amount, category, notes, date := "", Other, "", today;
      added := true;
    }

    /** `handleReset`: the same four defaults, and no expense is added. */
    method HandleReset(today: string)
      modifies this
      ensures amount == "" && category == Other && notes == "" && date == today
    {
      amount, category, notes, date := "", Other, "", today;
    }
  }

  /** Width of a week's status bar, in percent:
      `Math.min((spent / allocated) * 100, 100)`. */
  function BarWidth(s: WeeklySummary): (r: Num)
    ensures !Greater(r, 100.0)
    ensures r.NaN? <==> s.spent == 0 && s.allocation == 0
  {
    Min(Percent(s.spent, s.allocation), 100.0)
  }

  /** With a positive allocation and no refunds, the bar is a finite width
      between 0 and 100 that grows with the amount spent. */
  lemma BarWidthOfAllocatedWeek(s: WeeklySummary)
    requires s.allocation > 0 && s.spent >= 0
    ensures BarWidth(s).Finite? && 0.0 <= BarWidth(s).value <= 100.0
    ensures BarWidth(s).value == 100.0 <==> s.spent >= s.allocation
  {
    PercentOfPositive(s.spent, s.allocation);
    PercentExceeds(s.spent, s.allocation, 100.0);
    var p := s.spent as real * 100.0 / s.allocation as real;
    assert p >= 0.0;
    if p >= 100.0 {
      assert s.spent as real * 100.0 >= 100.0 * s.allocation as real;
    }
  }

  /** The bar turns red when the week is overspent: `spent > allocated`. */
  predicate BarIsRed(s: WeeklySummary)
  {
    s.spent > s.allocation
  }

  /** The remaining amount is shown in green when `remaining >= 0`. */
  predicate RemainingIsGreen(s: WeeklySummary)
  {
    s.remaining >= 0
  }

  /** On every summary the store produces, the bar is red exactly when the
      remaining amount is not green, and a red bar over a non-negative
      allocation is full. */
  lemma StatusColoursAgree(b: Budget, es: seq<Expense>, i: int)
    requires 0 <= i < 4
    ensures var s := WeeklySummaries(b, es)[i];
      (BarIsRed(s) <==> !RemainingIsGreen(s))
      && (BarIsRed(s) && s.allocation >= 0 ==> BarWidth(s) == Finite(100.0))
  {
    var s := WeeklySummaries(b, es)[i];
    if BarIsRed(s) && s.allocation >= 0 {
      PercentExceeds(s.spent, s.allocation, 100.0);
      assert s.spent as real * 100.0 > 100.0 * s.allocation as real;
    }
  }
}
