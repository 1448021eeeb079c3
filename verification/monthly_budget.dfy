/** The monthly budget card: this month's spending against a stored budget,
    the remaining-budget chart slice, the over-budget message, and the
    budget editor with its +10 / -10 steppers. */
module MonthlyBudget {
  import opened Optional
  import opened Ledger
  import opened Seqs

  /** This month's spending as written: the running total of EVERY
      transaction in the window, income included. */
  function TotalAsWritten(month: seq<Transaction>): (r: real)
    ensures r == Reduce(0.0, month, Amount)
  {
    ReduceIsSumBy(0.0, month, Amount);
    SumBy(month, Amount)
  }

  /** This month's spending: the sum over expense records only. */
  function TotalMonthlyExpense(month: seq<Transaction>): (r: real)
    ensures r == SumBy(month, ExpenseAmount)
    ensures r == Reduce(0.0, Filter(month, IsExpenseRecord), Amount)
  {
    var expenses := Filter(month, IsExpenseRecord);
    SumByFilter(month, Amount, IsExpenseRecord, ExpenseAmount);
    ReduceIsSumBy(0.0, expenses, Amount);
    SumBy(expenses, Amount)
  }

  /** The as-written total is the spending plus everything else in the
      window (income and records of unknown type). */
  lemma AsWrittenAddsNonExpenses(month: seq<Transaction>)
    ensures TotalAsWritten(month)
            == TotalMonthlyExpense(month)
               + SumBy(Filter(month, (t: Transaction) => !IsExpenseRecord(t)), Amount)
  {
    SumByPartition(month, Amount, IsExpenseRecord, (t: Transaction) => !IsExpenseRecord(t));
  }

  /** When every record is an expense the two totals agree. */
  lemma {:induction false} TotalsAgreeOnExpenses(month: seq<Transaction>)
    requires forall i :: 0 <= i < |month| ==> IsExpenseRecord(month[i])
    ensures TotalAsWritten(month) == TotalMonthlyExpense(month)
  {
    FilterAll(month, IsExpenseRecord);
  }

  /** A 100 expense and a 2 000 income against a 1 000 budget: as written
      the budget reads as exceeded by 1 100, while only 100 was spent. */
  lemma IncomeCountsAsSpending(spent: Transaction, earned: Transaction)
    requires spent == Transaction(1, "Expense", 100.0, 0, None, Some(Cash), None, None)
    requires earned == Transaction(2, "Income", 2000.0, 0, None, None, None, None)
    ensures BudgetExceeded(TotalAsWritten([spent, earned]), 1000.0)
    ensures Overspend(TotalAsWritten([spent, earned]), 1000.0) == 1100.0
    ensures TotalMonthlyExpense([spent, earned]) == 100.0
    ensures !BudgetExceeded(TotalMonthlyExpense([spent, earned]), 1000.0)
  {
    var month := [spent, earned];
    assert month[1..] == [earned];
    assert [earned][1..] == [];
    assert IsExpenseRecord(spent) && !IsExpenseRecord(earned);
    assert Filter(month, IsExpenseRecord) == [spent];
    assert SumBy([earned], Amount) == 2000.0;
    assert [spent][1..] == [];
    assert SumBy([spent], Amount) == 100.0;
  }

  /** The "remaining budget" chart slice. */
  function RemainingBudget(total: real, budget: real): (r: real)
    ensures r >= 0.0
    ensures r == 0.0 <==> total >= budget
    ensures total <= budget ==> total + r == budget
  {
    if budget - total > 0.0 then budget - total else 0.0
  }

  /** The amount the over-budget message reports. */
  function Overspend(total: real, budget: real): (r: real)
    ensures r > 0.0 <==> total > budget
    ensures budget + r == total
  {
    -(budget - total)
  }

  /** Whether the month is over budget: exactly when the message has a
      positive overspend to report, and then the chart's remaining slice is
      empty; otherwise spending and the remaining slice fill the budget. */
  function BudgetExceeded(total: real, budget: real): (r: bool)
    ensures r <==> Overspend(total, budget) > 0.0
    ensures r ==> RemainingBudget(total, budget) == 0.0
    ensures !r ==> total + RemainingBudget(total, budget) == budget
  {
    total > budget
  }

  /** The stored budget (1 000 by default), the editor's value, and whether
      the editor is open. */
  datatype Budget = Budget(monthlyBudget: real, newBudget: real, editing: bool)

  function InitialBudget(): Budget {
    Budget(1000.0, 1000.0, false)
  }

  datatype Press = EditBudget | Minus | Plus | Enter(value: real) | SetBudget

  /** One button press or entry. "Edit Budget" loads the stored budget into
      the editor; the steppers move it by 10 without bound; "Set Budget"
      stores it only when it is not negative, and closes the editor. */
  function Apply(b: Budget, p: Press): (r: Budget)
    ensures p.SetBudget? && b.editing ==>
              !r.editing && (b.newBudget >= 0.0 ==> r.monthlyBudget == b.newBudget)
                         && (b.newBudget < 0.0 ==> r.monthlyBudget == b.monthlyBudget)
    ensures !p.SetBudget? ==> r.monthlyBudget == b.monthlyBudget
  {
    match p
    case EditBudget => if b.editing then b else b.(newBudget := b.monthlyBudget, editing := true)
    case Minus => if b.editing then b.(newBudget := b.newBudget - 10.0) else b
    case Plus => if b.editing then b.(newBudget := b.newBudget + 10.0) else b
    case Enter(v) => if b.editing then b.(newBudget := v) else b
    case SetBudget =>
      if !b.editing then b
      else if b.newBudget >= 0.0 then b.(monthlyBudget := b.newBudget, editing := false)
      else b.(editing := false)
  }

  function ApplyAll(b: Budget, ps: seq<Press>): Budget
    decreases |ps|
  {
    if ps == [] then b else ApplyAll(Apply(b, ps[0]), ps[1..])
  }

  /** No sequence of presses stores a negative budget. */
  lemma {:induction false} BudgetNeverNegative(b: Budget, ps: seq<Press>)
    requires b.monthlyBudget >= 0.0
    ensures ApplyAll(b, ps).monthlyBudget >= 0.0
    decreases |ps|
  {
    if ps != [] {
      BudgetNeverNegative(Apply(b, ps[0]), ps[1..]);
    }
  }

  function Repeat(p: Press, n: nat): (r: seq<Press>)
    ensures |r| == n && forall i :: 0 <= i < n ==> r[i] == p
  {
    if n == 0 then [] else [p] + Repeat(p, n - 1)
  }

  /** In the open editor, n presses of one stepper move the value by 10n. */
  lemma {:induction false} Steps(b: Budget, p: Press, n: nat)
    requires b.editing && (p == Plus || p == Minus)
    ensures ApplyAll(b, Repeat(p, n)).editing
    ensures ApplyAll(b, Repeat(p, n)).monthlyBudget == b.monthlyBudget
    ensures ApplyAll(b, Repeat(p, n)).newBudget
            == if p == Plus then b.newBudget + 10.0 * n as real else b.newBudget - 10.0 * n as real
    decreases n
  {
    if n > 0 {
      assert Repeat(p, n)[1..] == Repeat(p, n - 1);
      Steps(Apply(b, p), p, n - 1);
    }
  }

  lemma {:induction false} ApplyAllConcat(b: Budget, ps: seq<Press>, qs: seq<Press>)
    ensures ApplyAll(b, ps + qs) == ApplyAll(ApplyAll(b, ps), qs)
    decreases |ps|
  {
    if ps == [] {
      assert ps + qs == qs;
    } else {
      assert (ps + qs)[1..] == ps[1..] + qs;
      ApplyAllConcat(Apply(b, ps[0]), ps[1..], qs);
    }
  }

  /** Opening the editor, pressing minus n times and plus n times, and
      setting stores the budget the editor opened with. */
  lemma StepsCancel(b: Budget, n: nat)
    requires !b.editing && b.monthlyBudget >= 0.0
    ensures ApplyAll(b, [EditBudget] + Repeat(Minus, n) + Repeat(Plus, n) + [SetBudget])
            == b.(newBudget := b.monthlyBudget)
  {
    var editor := Apply(b, EditBudget);
    ApplyAllConcat(b, [EditBudget] + Repeat(Minus, n) + Repeat(Plus, n), [SetBudget]);
    ApplyAllConcat(b, [EditBudget] + Repeat(Minus, n), Repeat(Plus, n));
    ApplyAllConcat(b, [EditBudget], Repeat(Minus, n));
    assert ApplyAll(b, [EditBudget]) == editor;
    Steps(editor, Minus, n);
    Steps(ApplyAll(editor, Repeat(Minus, n)), Plus, n);
  }
}
