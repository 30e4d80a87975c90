/** The expense store of `useFinance`: the budget and the ordered expense
    list, and the four operations that replace them. The random id of a new
    expense and the calendar that buckets its date are parameters. */
module Store {
  import opened Js
  import opened Finance
  import opened DateUtils
  import opened Summaries

  /** The budget a new store starts with: 50 000 a month, 12 500 a week. */
  const DefaultBudget: Budget := Budget(50000, Weeks(12500, 12500, 12500, 12500))

  lemma DefaultBudgetIsEvenSplit()
    ensures WeeksTotal(DefaultBudget.weeks) == DefaultBudget.monthly
    ensures forall w :: 1 <= w <= 4 ==> Allocated(DefaultBudget.weeks, w) == DefaultBudget.monthly / 4
  {
  }

  /** No expense in `es` has the id `id`. */
  predicate Fresh(es: seq<Expense>, id: string)
  {
    forall k :: 0 <= k < |es| ==> es[k].id != id
  }

  predicate UniqueIds(es: seq<Expense>)
  {
    forall i, j :: 0 <= i < j < |es| ==> es[i].id != es[j].id
  }

  /** The record `addExpense` builds: the draft's fields, the given id, and
      the week of month of the draft's date, computed once. */
  function NewExpense(d: Draft, id: string, cal: Calendar): (e: Expense)
    ensures e.id == id && e.amount == d.amount && e.category == d.category
    ensures e.notes == d.notes && e.date == d.date
    ensures 1 <= e.week <= 4
  {
    Expense(id, d.amount, d.category, d.notes, d.date, GetCurrentWeekOfMonth(cal, d.date))
  }

  /** `expenses.filter(expense => expense.id !== id)`. */
  function Without(es: seq<Expense>, id: string): seq<Expense>
  {
    if |es| == 0 then []
    else Without(es[..|es| - 1], id) + (if es[|es| - 1].id == id then [] else [es[|es| - 1]])
  }

  /** The filter distributes over concatenation, so it keeps the order of
      the records it keeps. */
  lemma {:induction false} WithoutAppend(a: seq<Expense>, b: seq<Expense>, id: string)
    ensures Without(a + b, id) == Without(a, id) + Without(b, id)
  {
    if |b| > 0 {
      var b' := b[..|b| - 1];
      assert (a + b)[..|a + b| - 1] == a + b';
      WithoutAppend(a, b', id);
    } else {
      assert a + b == a;
    }
  }

  /** Removing an id nobody has changes nothing. */
  lemma {:induction false} WithoutAbsent(es: seq<Expense>, id: string)
    requires Fresh(es, id)
    ensures Without(es, id) == es
  {
    if |es| > 0 {
      WithoutAbsent(es[..|es| - 1], id);
    }
  }

  /** Every kept record comes from the list and does not carry the id; every
      record of the list without the id is kept. */
  lemma {:induction false} WithoutMembership(es: seq<Expense>, id: string, x: Expense)
    ensures x in Without(es, id) <==> x in es && x.id != id
  {
    if |es| > 0 {
      var p := es[..|es| - 1];
      WithoutMembership(p, id, x);
      assert es == p + [es[|es| - 1]];
    }
  }

  lemma {:induction false} WithoutIsFresh(es: seq<Expense>, id: string)
    ensures Fresh(Without(es, id), id)
  {
    var r := Without(es, id);
    forall k | 0 <= k < |r| ensures r[k].id != id {
      WithoutMembership(es, id, r[k]);
    }
  }

  lemma {:induction false} WithoutKeepsUniqueIds(es: seq<Expense>, id: string)
    requires UniqueIds(es)
    ensures UniqueIds(Without(es, id))
  {
    if |es| > 0 {
      var p, e := es[..|es| - 1], es[|es| - 1];
      WithoutKeepsUniqueIds(p, id);
      if e.id != id {
        var r := Without(p, id);
        forall k | 0 <= k < |r| ensures r[k].id != e.id {
          WithoutMembership(p, id, r[k]);
          var j :| 0 <= j < |p| && p[j] == r[k];
          assert es[j] == p[j];
        }
      }
    }
  }

  lemma {:induction false} WithoutKeepsWeeksInRange(es: seq<Expense>, id: string)
    requires WeeksInRange(es)
    ensures WeeksInRange(Without(es, id))
  {
    var r := Without(es, id);
    forall k | 0 <= k < |r| ensures 1 <= r[k].week <= 4 {
      WithoutMembership(es, id, r[k]);
    }
  }

  /** Deleting the expense just added, under its fresh id, gives back the
      list as it was before the addition. */
  lemma AddThenDeleteRestores(es: seq<Expense>, d: Draft, id: string, cal: Calendar)
    requires Fresh(es, id)
    ensures Without(es + [NewExpense(d, id, cal)], id) == es
  {
    var e := NewExpense(d, id, cal);
    WithoutAppend(es, [e], id);
    WithoutAbsent(es, id);
    assert [e][..0] == [];
  }

  lemma AppendKeepsInvariants(es: seq<Expense>, e: Expense)
    ensures WeeksInRange(es) && 1 <= e.week <= 4 ==> WeeksInRange(es + [e])
    ensures UniqueIds(es) && Fresh(es, e.id) ==> UniqueIds(es + [e])
  {
  }

  /** What a successfully read backup file holds: `data.budget` and
      `data.expenses` when present (and truthy), `None` otherwise. A file
      that is not JSON, or whose top-level value is `null`, is `Unreadable`. */
  datatype ImportDocument = Unreadable | Document(budget: Option<Budget>, expenses: Option<seq<Expense>>)

  class FinanceStore {
    var budget: Budget
    var expenses: seq<Expense>

    constructor ()
      ensures budget == DefaultBudget && expenses == []
    {
      budget := DefaultBudget;
      expenses := [];
    }

    /** `addExpense`: appends one record at the end and leaves the budget and
        every earlier record as they were. With a fresh id, ids stay unique;
        the week of the new record is always one of the four buckets. */
    method AddExpense(d: Draft, id: string, cal: Calendar)
      modifies this
      ensures budget == old(budget)
      ensures expenses == old(expenses) + [NewExpense(d, id, cal)]
      ensures WeeksInRange(old(expenses)) ==> WeeksInRange(expenses)
      ensures UniqueIds(old(expenses)) && Fresh(old(expenses), id) ==> UniqueIds(expenses)
    {
      var e := NewExpense(d, id, cal);
      AppendKeepsInvariants(expenses, e);
      expenses := expenses + [e];
    }

    /** `deleteExpense`: keeps, in order, exactly the records whose id differs. */
    method DeleteExpense(id: string)
      modifies this
      ensures budget == old(budget)
      ensures expenses == Without(old(expenses), id)
      ensures Fresh(expenses, id)
      ensures Fresh(old(expenses), id) ==> expenses == old(expenses)
      ensures WeeksInRange(old(expenses)) ==> WeeksInRange(expenses)
      ensures UniqueIds(old(expenses)) ==> UniqueIds(expenses)
    {
      WithoutIsFresh(expenses, id);
      if Fresh(expenses, id) {
        WithoutAbsent(expenses, id);
      }
      if WeeksInRange(expenses) {
        WithoutKeepsWeeksInRange(expenses, id);
      }
      if UniqueIds(expenses) {
        WithoutKeepsUniqueIds(expenses, id);
      }
      expenses := Without(expenses, id);
    }

    /** `updateBudget`: replaces the budget wholesale. */
    method UpdateBudget(b: Budget)
      modifies this
      ensures budget == b && expenses == old(expenses)
    {
      budget := b;
    }

    /** The replace decision of `importData`: each part is replaced only when
        the document has it; an unreadable file changes nothing. */
    method ImportData(doc: ImportDocument)
      modifies this
      ensures doc.Unreadable? ==> budget == old(budget) && expenses == old(expenses)
      ensures doc.Document? ==> budget == (if doc.budget.Some? then doc.budget.value else old(budget))
      ensures doc.Document? ==> expenses == (if doc.expenses.Some? then doc.expenses.value else old(expenses))
    {
      if doc.Document? {
        if doc.budget.Some? {
          budget := doc.budget.value;
        }
        if doc.expenses.Some? {
          expenses := doc.expenses.value;
        }
      }
    }
  }
}
