/** The records of the finance tracker: a monthly budget split into four
    weekly allocations, expense records, and the derived summaries. Amounts
    are whole Pakistani rupees. */
module Finance {
  import opened Js

  datatype Category = Shopping | Food | Transport | Rent | Other

  datatype Weeks = Weeks(week1: int, week2: int, week3: int, week4: int)

  datatype Budget = Budget(monthly: int, weeks: Weeks)

  /** An expense; `week` is fixed when the record is created and never
      recomputed from `date`. An absent `notes` is the empty string. */
  datatype Expense = Expense(id: string, amount: int, category: Category, notes: string, date: string, week: int)

  /** What the add-expense form hands to the store: an expense without
      `id` and `week`. */
  datatype Draft = Draft(amount: int, category: Category, notes: string, date: string)

  /** `allocation` is the source's `allocated` (a reserved word in Dafny). */
  datatype WeeklySummary = WeeklySummary(week: int, allocation: int, spent: int, remaining: int)

  datatype MonthlySummary = MonthlySummary(totalBudget: int, totalSpent: int, totalRemaining: int, usagePercentage: Num)

  /** One entry of the category breakdown: `{ name, value }`. */
  datatype CategoryTotal = CategoryTotal(name: Category, value: int)

  /** `budget.weeks[`week${w}`]`. */
  function Allocated(weeks: Weeks, w: int): int
    requires 1 <= w <= 4
  {
    match w
    case 1 => weeks.week1
    case 2 => weeks.week2
    case 3 => weeks.week3
    case _ => weeks.week4
  }

  function WeeksTotal(weeks: Weeks): int
  {
    weeks.week1 + weeks.week2 + weeks.week3 + weeks.week4
  }

  /** The string literal of each category. */
  function CategoryName(c: Category): string
  {
    match c
    case Shopping => "Shopping"
    case Food => "Food"
    case Transport => "Transport"
    case Rent => "Rent"
    case Other => "Other"
  }

  /** The category a name stands for, if it is one of the five literals. */
  function CategoryNamed(name: string): (r: Option<Category>)
    ensures r.Some? ==> CategoryName(r.value) == name
  {
    if name == "Shopping" then Some(Shopping)
    else if name == "Food" then Some(Food)
    else if name == "Transport" then Some(Transport)
    else if name == "Rent" then Some(Rent)
    else if name == "Other" then Some(Other)
    else None
  }

  lemma CategoryNameRoundTrip(c: Category)
    ensures CategoryNamed(CategoryName(c)) == Some(c)
  {
  }
}
