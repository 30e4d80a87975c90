/** The expense list: the newest ten expenses, the "Showing 10 of N" footer,
    the empty state, and the delete confirmation dialog. Turning a date
    string into a timestamp (`new Date(date).getTime()`) is a parameter. */
module ExpenseList {
  import opened Js
  import opened Finance
  import opened Store

  /** Ordered newest first: no expense is dated after one before it. */
  predicate NewestFirst(r: seq<Expense>, time: string -> int)
  {
    forall i, j :: 0 <= i < j < |r| ==> time(r[i].date) >= time(r[j].date)
  }

  /** Inserts `x` after every expense dated no earlier than it, so that
      expenses with the same date keep their order. */
  function Insert(x: Expense, r: seq<Expense>, time: string -> int): seq<Expense>
  {
    if |r| == 0 then [x]
    else if time(r[0].date) >= time(x.date) then [r[0]] + Insert(x, r[1..], time)
    else [x] + r
  }

  /** `[...expenses].sort((a, b) => time(b.date) - time(a.date))`: a sorted
      copy, the stored list itself is left as it is. */
  function SortNewestFirst(es: seq<Expense>, time: string -> int): seq<Expense>
  {
    if |es| == 0 then [] else Insert(es[|es| - 1], SortNewestFirst(es[..|es| - 1], time), time)
  }

  lemma {:induction false} InsertPermutes(x: Expense, r: seq<Expense>, time: string -> int)
    ensures multiset(Insert(x, r, time)) == multiset(r) + multiset{x}
  {
    if |r| > 0 && time(r[0].date) >= time(x.date) {
      InsertPermutes(x, r[1..], time);
      assert r == [r[0]] + r[1..];
    }
  }

  lemma {:induction false} InsertKeepsOrder(x: Expense, r: seq<Expense>, time: string -> int)
    requires NewestFirst(r, time)
    ensures NewestFirst(Insert(x, r, time), time)
  {
    if |r| > 0 && time(r[0].date) >= time(x.date) {
      var tail := Insert(x, r[1..], time);
      InsertKeepsOrder(x, r[1..], time);
      InsertPermutes(x, r[1..], time);
      forall k | 0 <= k < |tail| ensures time(r[0].date) >= time(tail[k].date) {
        assert tail[k] in multiset(r[1..]) + multiset{x};
        if tail[k] != x {
          var m :| 0 <= m < |r[1..]| && r[1..][m] == tail[k];
          assert r[m + 1] == tail[k];
        }
      }
    }
  }

  /** The sorted copy holds exactly the stored expenses, newest first. */
  lemma {:induction false} SortIsOrderedPermutation(es: seq<Expense>, time: string -> int)
    ensures multiset(SortNewestFirst(es, time)) == multiset(es)
    ensures NewestFirst(SortNewestFirst(es, time), time)
  {
    if |es| > 0 {
      var p := es[..|es| - 1];
      SortIsOrderedPermutation(p, time);
      InsertPermutes(es[|es| - 1], SortNewestFirst(p, time), time);
      InsertKeepsOrder(es[|es| - 1], SortNewestFirst(p, time), time);
      assert es == p + [es[|es| - 1]];
    }
  }

  /** What the list shows. */
  datatype ListView =
    | NoExpenses
      /** At most ten rows, and the total count when the footer is shown. */
    | Recent(rows: seq<Expense>, footer: Option<int>)

  function View(es: seq<Expense>, time: string -> int): (v: ListView)
    ensures v.NoExpenses? <==> |es| == 0
    ensures v.Recent? ==> |v.rows| == (if |es| < 10 then |es| else 10)
    ensures v.Recent? ==> (v.footer.Some? <==> |es| > 10) && (v.footer.Some? ==> v.footer.value == |es|)
  {
    if |es| == 0 then NoExpenses
    else
      var sorted := SortNewestFirst(es, time);
      SortIsOrderedPermutation(es, time);
      assert |sorted| == |multiset(sorted)| == |es|;
      Recent(sorted[..if |sorted| < 10 then |sorted| else 10], if |es| > 10 then Some(|es|) else None)
  }

  /** The rows are the first ten (or fewer) entries of the sorted copy. */
  lemma ViewRows(es: seq<Expense>, time: string -> int)
    requires |es| > 0
    ensures var sorted := SortNewestFirst(es, time);
      var n := |View(es, time).rows|;
      n <= |sorted| && View(es, time).rows == sorted[..n]
  {
    SortIsOrderedPermutation(es, time);
    assert |SortNewestFirst(es, time)| == |multiset(es)| == |es|;
  }

  /** A prefix of a list ordered newest first is ordered, and nothing past
      the prefix is newer than an entry inside it. */
  lemma PrefixOfNewestFirst(sorted: seq<Expense>, n: int, time: string -> int)
    requires NewestFirst(sorted, time) && 0 <= n <= |sorted|
    ensures NewestFirst(sorted[..n], time)
    ensures multiset(sorted) == multiset(sorted[..n]) + multiset(sorted[n..])
    ensures forall x, k :: 0 <= k < n && x in multiset(sorted[n..]) ==> time(sorted[k].date) >= time(x.date)
  {
    assert sorted == sorted[..n] + sorted[n..];
    forall x, k | 0 <= k < n && x in multiset(sorted[n..]) ensures time(sorted[k].date) >= time(x.date) {
      var m :| 0 <= m < |sorted[n..]| && sorted[n..][m] == x;
      assert sorted[n + m] == x;
    }
  }

  /** The rows shown are stored expenses, newest first, and no hidden
      expense is newer than a shown one. */
  lemma ShownAreNewest(es: seq<Expense>, time: string -> int)
    requires |es| > 0
    ensures var rows := View(es, time).rows;
      && NewestFirst(rows, time)
      && multiset(rows) <= multiset(es)
      && forall x, k :: 0 <= k < |rows| && x in multiset(es) - multiset(rows) ==> time(rows[k].date) >= time(x.date)
  {
    var sorted := SortNewestFirst(es, time);
    SortIsOrderedPermutation(es, time);
    ViewRows(es, time);
    var n := |View(es, time).rows|;
    PrefixOfNewestFirst(sorted, n, time);
    assert multiset(es) - multiset(sorted[..n]) == multiset(sorted[n..]);
  }

  /** The delete dialog: `{ isOpen, expenseId }`. */
  class ConfirmDelete {
    var isOpen: bool
    var expenseId: Option<string>

    constructor ()
      ensures !isOpen && expenseId == None
    {
      isOpen, expenseId := false, None;
    }

    /** `handleDeleteClick`: opens the dialog for that expense; deletes nothing. */
    method HandleDeleteClick(id: string)
      modifies this
      ensures isOpen && expenseId == Some(id)
    {
      isOpen, expenseId := true, Some(id);
    }

    /** `handleConfirmDelete`: deletes the remembered expense, if there is
        one and its id is not the (falsy) empty string, then closes. */
    method HandleConfirmDelete(store: FinanceStore)
      modifies this, store
      ensures !isOpen && expenseId == None
      ensures store.budget == old(store.budget)
      ensures store.expenses ==
        if old(expenseId).Some? && old(expenseId).value != "" then Without(old(store.expenses), old(expenseId).value)
        else old(store.expenses)
    {
      if expenseId.Some? && expenseId.value != "" {
        store.DeleteExpense(expenseId.value);
      }
      isOpen, expenseId := false, None;
    }

    /** `handleCancelDelete`: closes without deleting. */
    method HandleCancelDelete()
      modifies this
      ensures !isOpen && expenseId == None
    {
      isOpen, expenseId := false, None;
    }
  }
}
