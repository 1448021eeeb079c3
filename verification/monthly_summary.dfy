/** The monthly summary card: this month's income and expense totals, or a
    message when there are no transactions this month. */
module MonthlySummary {
  import opened Ledger
  import opened Seqs

  function IncomeTransactions(month: seq<Transaction>): (r: seq<Transaction>)
    ensures forall i :: 0 <= i < |r| ==> r[i] in month && IsIncomeRecord(r[i])
    ensures forall i :: 0 <= i < |month| && IsIncomeRecord(month[i]) ==> month[i] in r
    ensures SubsequenceOf(r, month)
  {
    FilterSubsequence(month, IsIncomeRecord);
    Filter(month, IsIncomeRecord)
  }

  function ExpenseTransactions(month: seq<Transaction>): (r: seq<Transaction>)
    ensures forall i :: 0 <= i < |r| ==> r[i] in month && IsExpenseRecord(r[i])
    ensures forall i :: 0 <= i < |month| && IsExpenseRecord(month[i]) ==> month[i] in r
    ensures SubsequenceOf(r, month)
  {
    FilterSubsequence(month, IsExpenseRecord);
    Filter(month, IsExpenseRecord)
  }

  datatype Summary = NoTransactions | Totals(income: real, expense: real)

  /** The card's content for the transactions of this month. */
  function Summarise(month: seq<Transaction>): (r: Summary)
    ensures r.NoTransactions? <==> month == []
    ensures month == [] ==> IncomeTransactions(month) == [] && ExpenseTransactions(month) == []
    ensures r.Totals? ==> r.income == SumBy(month, IncomeAmount) && r.expense == SumBy(month, ExpenseAmount)
    ensures r.Totals? ==> r.income == Reduce(0.0, IncomeTransactions(month), Amount)
                          && r.expense == Reduce(0.0, ExpenseTransactions(month), Amount)
  {
    if month == [] then NoTransactions
    else
      var incomes := IncomeTransactions(month);
      var expenses := ExpenseTransactions(month);
      SumByFilter(month, Amount, IsIncomeRecord, IncomeAmount);
      SumByFilter(month, Amount, IsExpenseRecord, ExpenseAmount);
      ReduceIsSumBy(0.0, incomes, Amount);
      ReduceIsSumBy(0.0, expenses, Amount);
      Totals(SumBy(incomes, Amount), SumBy(expenses, Amount))
  }

  /** No transaction is in both lists, and when every raw type is known
      the lists split the month: together they hold every transaction, and
      the two totals add up to the sum of all amounts. */
  lemma ListsSplitMonth(month: seq<Transaction>)
    requires forall i :: 0 <= i < |month| ==>
               TransactionTypeFromRaw(month[i].typeRaw).Some?
    ensures multiset(IncomeTransactions(month)) + multiset(ExpenseTransactions(month))
            == multiset(month)
    ensures month != [] ==>
              Summarise(month).income + Summarise(month).expense == SumBy(month, Amount)
  {
    forall i | 0 <= i < |month|
      ensures IsIncomeRecord(month[i]) == !IsExpenseRecord(month[i])
    {
      RecordPredicates(month[i]);
    }
    FilterUnion(month, IsIncomeRecord, IsExpenseRecord, (t: Transaction) => true);
    FilterAll(month, (t: Transaction) => true);
    SumByPartition(month, Amount, IsIncomeRecord, IsExpenseRecord);
    forall i | 0 <= i < |month| ensures IsExpenseRecord(month[i]) == !IsIncomeRecord(month[i]) {
      RecordPredicates(month[i]);
    }
  }

  /** A transaction never lands in both lists. */
  lemma ListsDisjoint(month: seq<Transaction>, t: Transaction)
    ensures !(t in IncomeTransactions(month) && t in ExpenseTransactions(month))
  {
    RecordPredicates(t);
    if t in IncomeTransactions(month) {
      var i :| 0 <= i < |IncomeTransactions(month)| && IncomeTransactions(month)[i] == t;
    }
  }
}
