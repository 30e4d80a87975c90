# Finance tracker: a verified model of the budget core

This project models the core of a personal finance tracker written in
TypeScript and React. A user sets a monthly budget (in Pakistani rupees)
and splits it over four weeks. They record expenses in five categories and
see weekly, monthly and per-category summaries. The model covers:

- the expense store of `useFinance`: the budget and the ordered list of
  expenses, with add, delete, budget update and the replace decision of
  import (`store.dfy`);
- the aggregator: four weekly summaries, the monthly summary and the
  category breakdown (`summaries.dfy`);
- the week-of-month bucketing of a date into weeks 1 to 4 (`date_utils.dfy`);
- the rules inside the five screens: budget planning, adding an expense,
  the expense list, the dashboard and the reports page (one file each).

Supporting files:
- `finance.dfy` holds the records.
- `js.dfy` holds the JavaScript number behaviour the screens rely on:
  - division by zero giving NaN or an infinity;
  - `Math.min`, and comparisons with NaN;
  - `parseFloat`, `toString` and `x || 0`.
- `colours.dfy` names the colour bands.

State that the source changes through setters is modelled with classes whose
methods have `modifies` clauses:
- the store;
- the budget form;
- the add-expense form;
- the delete dialog.

The derived values are functions, with lemmas that state what they mean. The
per-category tally is also written as the loop over a map that the source's
`reduce` performs, proved equal to its specification. The dashboard's top-five
list sorts the breakdown array in place, as the source does.

## Model

| member | source | states |
|---|---|---|
| Store.DefaultBudgetIsEvenSplit | src/hooks/useFinance.ts:6-14 | the default budget's four weeks add up to the monthly 50 000, each being a quarter of it |
| Store.FinanceStore.constructor | src/hooks/useFinance.ts:17-18 | a new store holds the default budget and no expenses |
| Store.NewExpense | src/hooks/useFinance.ts:20-25 | the new record carries the draft's amount, category, notes and date and the given id; its week is always in 1..4 |
| Store.FinanceStore.AddExpense | src/hooks/useFinance.ts:20-27 | exactly one record is appended at the end; earlier records and the budget are unchanged; weeks stay in 1..4 and, with a fresh id, ids stay unique |
| Store.AppendKeepsInvariants | src/hooks/useFinance.ts:21-26 | appending a record with week in 1..4 and a fresh id keeps both store invariants |
| Store.FinanceStore.DeleteExpense | src/hooks/useFinance.ts:29-31 | the list becomes the id filter of the old list: no record with that id remains, an absent id changes nothing, the invariants are kept, the budget is unchanged |
| Store.Without | src/hooks/useFinance.ts:30 | the records whose id differs from the given one, in their order; what it keeps and drops is stated by the `Without…` lemmas below |
| Store.WithoutAppend | src/hooks/useFinance.ts:30 | filtering by id distributes over concatenation, so the kept records stay in their order |
| Store.WithoutAbsent | src/hooks/useFinance.ts:30 | deleting an id that no record has leaves the list as it is |
| Store.WithoutMembership | src/hooks/useFinance.ts:30 | a record survives the delete exactly when it was in the list and has a different id |
| Store.WithoutIsFresh | src/hooks/useFinance.ts:30 | after the delete no record has the deleted id |
| Store.WithoutKeepsUniqueIds | src/hooks/useFinance.ts:30 | deleting keeps ids unique |
| Store.WithoutKeepsWeeksInRange | src/hooks/useFinance.ts:30 | deleting keeps every week in 1..4 |
| Store.AddThenDeleteRestores | src/hooks/useFinance.ts:20-31 | adding a record under a fresh id and then deleting that id gives back the original list |
| Store.FinanceStore.UpdateBudget | src/hooks/useFinance.ts:33-35 | the budget is replaced wholesale and the expenses are unchanged |
| Store.FinanceStore.ImportData | src/hooks/useFinance.ts:98-105 | the budget is replaced only when the document has one, and likewise the expenses; an unreadable file changes nothing |
| DateUtils.WeekOfMonth | src/utils/dateUtils.ts:8-17 | the result is in 1..4; a raw value already in 1..4 is kept, a raw value at most 0 gives 1, one above 4 gives 4 |
| DateUtils.GetCurrentWeekOfMonth | src/utils/dateUtils.ts:3-18 | for any calendar and date the week of month is one of 1..4 |
| DateUtils.WeekOfMonthIsNearestBucket | src/utils/dateUtils.ts:8-17 | the chosen bucket is the one of 1..4 nearest to the raw week difference |
| DateUtils.WeekOfMonthMonotone | src/utils/dateUtils.ts:8-17 | a later week number never gives an earlier bucket |
| DateUtils.WrappedWeekNumberIsWeekOne | src/utils/dateUtils.ts:11-12 | a date whose week number wrapped below its month start's falls in week 1 |
| DateUtils.MonthStartWeekIsWeekOne | src/utils/dateUtils.ts:4-8 | the first day of a month, and every day in its week, falls in week 1 |
| DateUtils.LateWeeksFoldIntoWeekFour | src/utils/dateUtils.ts:13-14 | the fifth and sixth calendar weeks of a month fall in week 4 |
| Summaries.TotalSpent | src/hooks/useFinance.ts:55 | the sum of all amounts, written as the left-to-right `reduce` from 0; its growth under an append is `TotalSpentAppend` |
| Summaries.InWeek | src/hooks/useFinance.ts:41-42 | the records whose week is the given one, in their order |
| Summaries.SpentInWeek | src/hooks/useFinance.ts:41-43 | the sum of the amounts of a week's records; see `SpentInWeekAppend` and `WeeklySpentAddsUp` |
| Summaries.MonthlySummaryOf | src/hooks/useFinance.ts:54-65 | the monthly budget, the total spent, the budget minus it, and `totalSpent / monthly * 100` with JavaScript's division by zero; see `UsagePercentageDefinedIff` and `MonthlyRemainingIsSumOfWeekly` |
| Summaries.TotalSpentAppend | src/hooks/useFinance.ts:55 | the total grows by exactly the appended amount |
| Summaries.SpentInWeekAppend | src/hooks/useFinance.ts:41-43 | a week's spending grows by the appended amount exactly when the record is in that week |
| Summaries.WeeklySummaries | src/hooks/useFinance.ts:37-52 | four summaries for weeks 1, 2, 3, 4 in order, each with the week's allocation, the sum of the amounts stored in that week, and remaining = allocated - spent (possibly negative) |
| Summaries.WeeklySpentAddsUp | src/hooks/useFinance.ts:41-55 | the four weekly sums add up to the total of the records whose week is in 1..4 |
| Summaries.InMonthWeeksOfInRange | src/hooks/useFinance.ts:42 | when every week is in 1..4 no record is outside the four weeks |
| Summaries.WeeklySpentSumsToMonthlyTotal | src/hooks/useFinance.ts:37-55 | the weekly spent values add up to the monthly total of the in-range records, hence to the monthly total when every week is in 1..4 |
| Summaries.MonthlyRemainingIsSumOfWeekly | src/hooks/useFinance.ts:37-56 | with weeks adding up to the monthly budget and weeks in range, the monthly remaining is the sum of the weekly remaining amounts |
| Summaries.UsagePercentageDefinedIff | src/hooks/useFinance.ts:57 | the usage percentage is a finite number exactly when the monthly budget is not 0; NaN for 0 of 0, an infinity otherwise |
| Summaries.AppendChangesOnlyItsWeek | src/hooks/useFinance.ts:26-55 | adding an expense changes only the summary of its own week, by its amount, and raises the monthly total by its amount |
| Summaries.RentScenario | src/hooks/useFinance.ts:37-64 | a worked example: a 15 000 rent payment in week 1 against the default budget leaves week 1 at -2 500 remaining and the month at 30 percent usage |
| Summaries.OfCategory | src/hooks/useFinance.ts:68-71 | the records of one category, in their order |
| Summaries.CategorySpent | src/hooks/useFinance.ts:68-71 | the sum a category's key ends up holding: the total of that category's records |
| Summaries.Categories | src/hooks/useFinance.ts:68-73 | the accumulator's key order: each category once, at its first occurrence; see `CategoriesMembership`, `CategoriesDistinct`, `CategoriesInFirstOccurrenceOrder` |
| Summaries.CategorySpentAppend | src/hooks/useFinance.ts:68-71 | a category's sum grows by the appended amount exactly when the record is of that category |
| Summaries.CategorySpentOfAbsent | src/hooks/useFinance.ts:68-71 | a category that no record has sums to 0 |
| Summaries.CategoriesDistinct | src/hooks/useFinance.ts:73-76 | each category appears at most once in the breakdown |
| Summaries.CategoriesMembership | src/hooks/useFinance.ts:68-76 | a category is listed exactly when some record has it |
| Summaries.Rows | src/hooks/useFinance.ts:73-76 | one entry per listed category, in the same order, whose value is that category's sum |
| Summaries.CategoriesSnoc | src/hooks/useFinance.ts:68-71 | a category gets a key when it first occurs, after the existing keys, and never again |
| Summaries.TallyKeysStep | src/hooks/useFinance.ts:68-71 | after one step of the reduce the keys are the categories seen, in first-occurrence order |
| Summaries.TallyValuesStep | src/hooks/useFinance.ts:68-71 | after one step of the reduce every key holds the sum of the amounts of its category among the records seen |
| Summaries.TallyStep | src/hooks/useFinance.ts:68-71 | one step of the reduce keeps the accumulator equal to the per-category sums of the records seen, keys in first-occurrence order |
| Summaries.Tally | src/hooks/useFinance.ts:68-71 | the loop leaves, for every category seen, its sum, with the keys in first-occurrence order |
| Summaries.BuildCategoryBreakdown | src/hooks/useFinance.ts:67-77 | the entries built from the accumulator are exactly the specified breakdown |
| Summaries.CategoriesInFirstOccurrenceOrder | src/hooks/useFinance.ts:68-73 | of two listed categories, the earlier one occurs in the records before the later one first does |
| Summaries.BreakdownInFirstOccurrenceOrder | src/hooks/useFinance.ts:67-77 | breakdown entries are in the order in which their categories first occur |
| Summaries.CategoryBreakdown | src/hooks/useFinance.ts:67-77 | the specification of `categoryBreakdown`: one entry per key, in key order, valued at the key's sum; its meaning is stated by `BreakdownIsGrouping`, `BreakdownSumsToTotal`, `BreakdownSize` |
| Summaries.BreakdownIsGrouping | src/hooks/useFinance.ts:67-77 | a category has an entry exactly when some record has it; its value is that category's sum; names are distinct |
| Summaries.RowsSumAppend | src/hooks/useFinance.ts:68-76 | over distinct categories, appending a record raises the sum of the entries by its amount when its category is listed |
| Summaries.RowsSumIsTotalOfCategories | src/hooks/useFinance.ts:68-76 | over distinct categories, the entries add up to the total of the records in those categories |
| Summaries.BreakdownSumsToTotal | src/hooks/useFinance.ts:55-77 | the breakdown values add up to the monthly total spent |
| Summaries.BreakdownSize | src/hooks/useFinance.ts:67-77 | at most five entries, and none exactly when there are no expenses |
| Summaries.GroupingScenario | src/hooks/useFinance.ts:67-77 | a worked example: any food record of 100, then a food record of 50, then a transport record of 30 give Food 150 then Transport 30 |
| Finance.CategoryNamed | src/types/finance.ts:20 | a name maps to a category only when it is that category's literal |
| Finance.CategoryNameRoundTrip | src/types/finance.ts:20 | every category's literal names it back |
| Finance.Allocated | src/hooks/useFinance.ts:40 | the budget for week w of the four; its meaning is stated by `Summaries.WeeklySummaries` (each summary's allocation is `Allocated(b.weeks, i + 1)`) and by `Store.DefaultBudgetIsEvenSplit` (a quarter of the monthly budget per week in the default budget) |
| Js.Divide | src/hooks/useFinance.ts:57 | JavaScript division: the quotient for a non-zero divisor, NaN for 0/0, and an infinity of the dividend's sign otherwise |
| Js.Percent | src/hooks/useFinance.ts:57 | `(part / whole) * 100` with that division; see `PercentOfPositive` and `PercentExceeds` |
| Js.Greater | src/components/Dashboard.tsx:103-105 | `x > k` on a JavaScript number: false for NaN and for -Infinity, true for +Infinity |
| Js.OrZero | src/components/BudgetPlanning.tsx:18 | `x || 0` on a parsed number: NaN becomes 0 |
| Js.IntToString | src/components/BudgetPlanning.tsx:9-14 | `toString` of an integer: a minus sign for a negative value, then its decimal digits; `ParseIntToString` reads it back |
| Js.ParseFloat | src/components/BudgetPlanning.tsx:18 | `parseFloat` on an optional sign and digits: the digits up to the first other character, NaN (`None`) when there is none; see `ParseDigits`, `ParseIntToString`, `ParseWithoutDigits` |
| Js.ParseWholeNumber | src/components/AddExpense.tsx:25-31 | text made of an optional sign and digits parses, to the value of its digits with the sign applied |
| Js.Min | src/components/AddExpense.tsx:196 | `Math.min(x, 100)` is never above 100; it is NaN exactly when x is |
| Js.PercentOfPositive | src/hooks/useFinance.ts:57 | over a positive whole, `part / whole * 100` is the finite ratio |
| Js.PercentExceeds | src/hooks/useFinance.ts:57 | over a non-negative whole, the percentage exceeds k exactly when 100 * part > k * whole, NaN and the infinities included |
| Js.GuardedPercent | src/components/Reports.tsx:173 | 0 for a whole that is not positive, otherwise the value whose product with the whole is 100 * part |
| Js.GuardedPercentExceeds | src/components/Reports.tsx:173-189 | over a positive whole the guarded percentage exceeds k exactly when 100 * part > k * whole |
| Js.ParseIntToString | src/components/BudgetPlanning.tsx:9-15 | a field written with `toString` parses back to the same integer |
| Js.ParseWithoutDigits | src/components/AddExpense.tsx:25 | an empty field, or one without digits, parses to NaN |
| BudgetPlanning.FieldValue | src/components/BudgetPlanning.tsx:18 | `parseFloat(field) \|\| 0`: the parsed number when the field parses, 0 when it does not |
| BudgetPlanning.TotalWeeklyBudget | src/components/BudgetPlanning.tsx:17-20 | the sum of the four fields' values, each unparseable field counting as 0; see `TotalOfInputsOf` |
| BudgetPlanning.IsOverBudget | src/components/BudgetPlanning.tsx:22 | the weekly total exceeds the parsed monthly budget; false when the monthly field does not parse; see `OverBudgetIffUnallocatedNegative` |
| BudgetPlanning.Unallocated | src/components/BudgetPlanning.tsx:179-181 | NaN exactly when the monthly field does not parse; otherwise the amount that added to the weekly total gives the monthly value |
| BudgetPlanning.OverBudgetIffUnallocatedNegative | src/components/BudgetPlanning.tsx:172-181 | the over-budget warning is shown exactly when the unallocated amount is negative |
| BudgetPlanning.Distribution | src/components/BudgetPlanning.tsx:39-48 | weeks 1-3 are equal, each `floor(monthly / 4)`; the four weeks add up to monthly; week 4 exceeds the others by `monthly mod 4`, in 0..3 |
| BudgetPlanning.InputsOf | src/components/BudgetPlanning.tsx:44-47 | the four fields written with `toString` from weekly amounts |
| BudgetPlanning.TotalOfInputsOf | src/components/BudgetPlanning.tsx:17-20 | the weekly total of fields written from amounts is the sum of those amounts |
| BudgetPlanning.BudgetFromForm | src/components/BudgetPlanning.tsx:24-33 | each of the five fields is saved as its parsed value when it parses and as 0 when it does not; the saved weeks add up to the weekly total shown |
| BudgetPlanning.SaveUntouchedFormKeepsBudget | src/components/BudgetPlanning.tsx:9-35 | saving a form that still shows the stored budget stores that same budget |
| BudgetPlanning.AutoDistributeIsWithinBudget | src/components/BudgetPlanning.tsx:17-48 | after auto-distribute the weekly total equals the monthly field read as `parseFloat(…) \|\| 0`, there is no warning and, when the monthly field parses, nothing is unallocated |
| BudgetPlanning.Share | src/components/BudgetPlanning.tsx:148 | a week's share is 0 unless the monthly value is positive, otherwise amount / monthly * 100 |
| BudgetPlanning.WeekShare | src/components/BudgetPlanning.tsx:147-148 | a week field's share of the monthly field, both read with `parseFloat`, the week field defaulting to 0; its meaning is stated by `Share` and by `AutoDistributeSharesSumToHundred` (the four shares add up to 100 after auto-distribute) |
| BudgetPlanning.SharesSumToHundred | src/components/BudgetPlanning.tsx:146-148 | amounts adding up to a positive monthly budget have shares adding up to 100 percent |
| BudgetPlanning.AutoDistributeSharesSumToHundred | src/components/BudgetPlanning.tsx:39-148 | after auto-distribute of a positive budget the four shares add up to 100 percent |
| BudgetPlanning.BudgetPlanningForm.constructor | src/components/BudgetPlanning.tsx:9-15 | the form opens showing the stored budget |
| BudgetPlanning.BudgetPlanningForm.HandleAutoDistribute | src/components/BudgetPlanning.tsx:39-49 | the weekly fields are rewritten with the even split of the parsed monthly value, the monthly field is untouched, and no warning follows |
| BudgetPlanning.BudgetPlanningForm.HandleSave | src/components/BudgetPlanning.tsx:24-37 | the store's budget becomes the parsed form, its expenses are unchanged |
| AddExpense.Trim | src/components/AddExpense.tsx:33 | `notes.trim()`: leading then trailing white space removed; its meaning is stated by `TrimCutsSpace` and `TrimIdempotent` |
| AddExpense.TrimIsSlice | src/components/AddExpense.tsx:33 | the trimmed notes are a contiguous piece of the notes |
| AddExpense.TrimDropsTrailingSpace | src/components/AddExpense.tsx:33 | everything cut from the end of the notes is white space |
| AddExpense.TrimCutsSpace | src/components/AddExpense.tsx:33 | the trimmed notes are a contiguous piece of the notes, with only white space cut from either end and none left at either end |
| AddExpense.TrimIdempotent | src/components/AddExpense.tsx:33 | trimming twice is trimming once |
| AddExpense.NumberInputValue | src/components/AddExpense.tsx:25-31 | the amounts the model covers: empty, or an optional sign and digits |
| AddExpense.RejectsAmount | src/components/AddExpense.tsx:25 | the guard as written: an empty amount, or one that parses to a number at most 0; NaN passes |
| AddExpense.UnparseableAmountPassesGuard | src/components/AddExpense.tsx:25 | the guard lets a non-empty amount that does not parse through (`NaN <= 0` is false) |
| AddExpense.GuardOnNumberInput | src/components/AddExpense.tsx:25-28 | on the covered amounts, the guard accepts exactly those that parse to a positive number, and rejects the empty field |
| AddExpense.DraftOf | src/components/AddExpense.tsx:30-35 | the draft carries the parsed amount, the category, the trimmed notes and the date |
| AddExpense.AddExpenseForm.constructor | src/components/AddExpense.tsx:9-12 | the form opens with an empty amount, category Other, empty notes and today's date |
| AddExpense.AddExpenseForm.HandleSubmit | src/components/AddExpense.tsx:22-44 | a rejected amount changes neither the form nor the store; an accepted one appends exactly one expense built from the draft, and resets the form to its defaults |
| AddExpense.AddExpenseForm.HandleReset | src/components/AddExpense.tsx:46-51 | the four fields return to their defaults, and no expense is added |
| AddExpense.BarWidth | src/components/AddExpense.tsx:196 | the bar is never wider than 100 percent; its width is NaN exactly when nothing is allocated and nothing spent |
| AddExpense.BarWidthOfAllocatedWeek | src/components/AddExpense.tsx:196 | with a positive allocation and non-negative spending the width is a finite percentage in 0..100, full exactly when the allocation is used up |
| AddExpense.BarIsRed | src/components/AddExpense.tsx:191 | a week's bar is red when more than its allocation is spent |
| AddExpense.RemainingIsGreen | src/components/AddExpense.tsx:182 | a week's remaining amount is green when it is not negative |
| AddExpense.StatusColoursAgree | src/components/AddExpense.tsx:181-196 | on the store's summaries the bar is red exactly when the remaining amount is not green, and over a non-negative allocation a red bar is full |
| ExpenseList.Insert | src/components/ExpenseList.tsx:42-44 | one insertion step of the sort: the record goes after every record dated no earlier; see `InsertPermutes` and `InsertKeepsOrder` |
| ExpenseList.SortNewestFirst | src/components/ExpenseList.tsx:42-44 | the sorted copy of the list, newest first; see `SortIsOrderedPermutation` |
| ExpenseList.SortIsOrderedPermutation | src/components/ExpenseList.tsx:42-44 | the sorted copy holds exactly the stored expenses, newest date first |
| ExpenseList.View | src/components/ExpenseList.tsx:46-112 | the empty state exactly when there are no expenses; otherwise min(N, 10) rows, and the "Showing 10 of N" footer exactly when N > 10 |
| ExpenseList.ViewRows | src/components/ExpenseList.tsx:42-61 | the rows shown are the first ten (or fewer) entries of the sorted copy |
| ExpenseList.PrefixOfNewestFirst | src/components/ExpenseList.tsx:42-61 | a prefix of a list ordered newest first is ordered, and nothing after it is newer than anything in it |
| ExpenseList.ShownAreNewest | src/components/ExpenseList.tsx:42-61 | the rows shown are stored expenses, newest first, and no hidden expense is newer than a shown one |
| ExpenseList.ConfirmDelete.constructor | src/components/ExpenseList.tsx:10-13 | the dialog starts closed with no remembered id |
| ExpenseList.ConfirmDelete.HandleDeleteClick | src/components/ExpenseList.tsx:26-28 | the dialog opens and remembers the id; the store is not touched |
| ExpenseList.ConfirmDelete.HandleConfirmDelete | src/components/ExpenseList.tsx:30-36 | a remembered non-empty id is deleted from the store, nothing else is; the dialog closes and forgets the id |
| ExpenseList.ConfirmDelete.HandleCancelDelete | src/components/ExpenseList.tsx:38-40 | the dialog closes and forgets the id; the store is not touched |
| Dashboard.CurrentWeekSummary | src/components/Dashboard.tsx:10 | the summary at index currentWeek - 1 when that index is in bounds, none otherwise |
| Dashboard.CurrentWeekIsFound | src/components/Dashboard.tsx:9-46 | today's week is always found among the four summaries, and the card shows that week's allocation minus its spending |
| Dashboard.ThisWeekRemaining | src/components/Dashboard.tsx:44 | `currentWeekSummary?.remaining \|\| 0`: the week's remaining amount, or 0 when there is no summary; see `CurrentWeekIsFound` |
| Dashboard.ThisWeekCardColour | src/components/Dashboard.tsx:44-46 | the card is red exactly when the current week's remaining amount is negative, purple otherwise |
| Dashboard.RemainingCardColour | src/components/Dashboard.tsx:40 | green when the monthly remaining amount is not negative, red otherwise |
| Dashboard.RemainingCardGreenIffWithinBudget | src/components/Dashboard.tsx:36-41 | the remaining card is green exactly when no more than the monthly budget is spent, red otherwise |
| Dashboard.UsageColour | src/components/Dashboard.tsx:101-108 | red above 100 percent, yellow above 80, blue otherwise, with NaN blue; see `UsageColourOfSummary` |
| Dashboard.UsageBarWidth | src/components/Dashboard.tsx:110 | the usage bar is never wider than 100 percent |
| Dashboard.UsageColourOfSummary | src/components/Dashboard.tsx:101-108 | over a non-negative budget: red exactly when more than the budget is spent, yellow exactly when more than 80 percent but not more than all of it |
| Dashboard.OverBudgetFillsBar | src/components/Dashboard.tsx:103-110 | over a non-negative monthly budget, spending beyond the budget fills the bar |
| Dashboard.IconFor | src/components/Dashboard.tsx:12-21 | an inherited `Object.prototype` name finds the inherited member and no icon; any other name finds its own category's entry, or Other's when it names no category |
| Dashboard.IconForCategory | src/components/Dashboard.tsx:20 | each category's own name finds its own entry |
| Dashboard.TopCategoriesShown | src/components/Dashboard.tsx:151 | the top-categories section is shown when the breakdown is not empty |
| Dashboard.TopCategoriesShownIffExpenses | src/components/Dashboard.tsx:151 | the top-categories section is shown exactly when some expense is stored |
| Dashboard.SortByValueDesc | src/components/Dashboard.tsx:155-156 | the breakdown array is reordered in place into descending order of value, keeping the same entries |
| Dashboard.InsertAt | src/components/Dashboard.tsx:156 | one insertion step extends the descending prefix by one entry and keeps the same entries |
| Dashboard.TopCategories | src/components/Dashboard.tsx:155-157 | the array is sorted in place; the list shown is its first min(5, n) entries, none smaller than any entry left out |
| Reports.WeekLabel | src/components/Reports.tsx:13 | the label starts with "Week " |
| Reports.WeekLabelsDistinct | src/components/Reports.tsx:13 | different weeks get different labels |
| Reports.WeeklyData | src/components/Reports.tsx:12-17 | one row per summary, in order, labelled "Week n", with the same allocated, spent and remaining values |
| Reports.WeeklyDataOfStore | src/components/Reports.tsx:12-17 | the store's summaries give four rows labelled Week 1 to Week 4, all different, with remaining = allocated - spent |
| Reports.WeekUsage | src/components/Reports.tsx:173 | a week's usage in percent, 0 when it has no positive allocation |
| Reports.WeekUsageColour | src/components/Reports.tsx:186-188 | red above 100 percent, yellow above 80, green otherwise |
| Reports.WeekUsageColourBands | src/components/Reports.tsx:173-189 | for a week with a positive allocation: red exactly when overspent, yellow exactly when more than 80 percent but not more than the allocation is spent; a week whose allocation is zero or negative is 0 percent and green |
| Reports.WeeklyAverage | src/components/Reports.tsx:67 | the monthly total spent divided by 4 |
| Reports.WeeklyAverageIsMeanOfWeeks | src/components/Reports.tsx:67 | with every week in 1..4, four times the weekly average is the sum of the four weeks' spending |
| Reports.CategoryCount | src/components/Reports.tsx:52 | the number of breakdown entries |
| Reports.ShowsNoExpensesMessage | src/components/Reports.tsx:80 | the "No expenses to display" message replaces the chart when the breakdown is empty |
| Reports.CategoryCountOfStore | src/components/Reports.tsx:52-114 | the category count is at most 5, and "No expenses to display" is shown exactly when there are no expenses |

## Left out

- The browser side of import and export is not modelled:
  - the `FileReader` and `JSON.parse`;
  - the download in `exportData` (Blob, object URL, link click).
- `ImportData` receives the parsed document or its failure. On a failure the source logs with `console.error` and shows an `alert`; neither is modelled, only that the state is unchanged. Imported values are assumed to have the record shapes, as the source assumes without checking.
- Persistence in `localStorage` and React's `useState`/`useMemo` plumbing are not modelled. The store is a plain object.
- `crypto.randomUUID` becomes the `id` parameter of `AddExpense`. Uniqueness of ids is stated for a fresh id.
- Foreign date handling becomes parameters:
  - date-fns `getWeek` and `startOfMonth`, and the parsing of `new Date(date)`, are the two functions of a `Calendar`;
  - the timestamp used by the expense list's sort is a function from date strings to integers;
  - the time zone effect of `new Date('YYYY-MM-DD')` and invalid dates (a NaN comparator) are not represented.
- Today's date (`new Date()`) is a parameter of the handlers and lemmas that need it.
- `parseFloat` is modelled only for an optional sign followed by decimal digits:
  - a fraction, an exponent, leading white space and `Infinity` are not read;
  - amounts and budget fields are whole rupees, so `"12.5"` reads as 12 in the model where JavaScript reads 12.5.
- JavaScript numbers are exact integers and reals in the model:
  - rounding, values beyond 2^53 and negative zero are not represented;
  - the non-finite results of a division by zero are (`Js.Num`).
- Display formatting is not modelled: `formatCurrency`, `formatDate` and `toFixed`.
- Recharts rendering and the pie-slice colours are not modelled.
- Layout, icons other than the category fallback, toasts and the confirmation modal's markup are not modelled.
- Categories outside the five literals (possible only through a hand-edited import) cannot be represented in `Expense`.
- Dashboard.IconFor: stated over any name. A name that is neither a category nor an inherited `Object.prototype` member gets the Other fallback. An inherited name such as `"toString"` gets the inherited member, which has no icon. What React does when it renders that missing icon is not modelled.
- The inputs' `onChange` handlers, which only copy the typed text into a field, are not separate methods. The form fields are the classes' fields.
- ExpenseList.SortNewestFirst: `Array.prototype.sort` is stable and so is the insertion used here. The order of expenses with the same date is not stated in a contract.
- Dashboard.SortByValueDesc: stable like the source's sort, but the order of equal values is not stated in a contract.
- AddExpense.AddExpenseForm.HandleSubmit: requires the amount to be empty or a whole number, optionally signed (`NumberInputValue`). A number input also reports fractions and exponents, which the model does not cover: for `"0.5"` the source's guard accepts and stores 0.5, and for `"1e3"` it stores 1000. A non-numeric amount that passes the guard (see `UnparseableAmountPassesGuard`) would store NaN, which the integer `amount` cannot hold.

## Where the code departs from the behaviour one might expect

The model follows the code in each case.

- **Week numbering.** The weeks are not ISO 8601 weeks. The code uses date-fns `getWeek(date, { weekStartsOn: 1 })`, which is locale week numbering with Monday as first day. The model leaves the week function abstract, and the clamp is the same either way.
- **Year-end dates.** In late December the week number of a date can wrap to 1 while the month start's stays high: with Monday-first numbering, 2024-12-30 and 2024-12-31 are in week 1 of 2025, and 2024-12-01 is in week 48. The difference is then at most 0 and the clamp files those days under week 1 of December, although they belong to the month's last week. `DateUtils.WrappedWeekNumberIsWeekOne` states this behaviour, and the model keeps it.
- **Amount validation.** The store itself does not reject amounts that are not positive. The code's `addExpense` accepts any draft; the only check is the add-expense form's guard. `Store.FinanceStore.AddExpense` therefore has no precondition on the amount.
- **Zero budget.** There is no sentinel for a monthly budget of 0. The code computes `totalSpent / 0 * 100`, which is NaN or an infinity. The model keeps those values (`Summaries.UsagePercentageDefinedIff`, `Dashboard.UsageColourOfSummary`).
- **Import without keys.** A readable document with neither key is not rejected. The code applies neither replacement, so the state stays as it was, and no error is shown.
