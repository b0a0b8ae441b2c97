/**
 * The domain records of the finance tracker: transaction types and budget
 * periods with their string values, transactions, budgets, and the two
 * derived records (budget analytics and the financial summary) whose fields
 * are computed when they are built.
 */
module Models {
  import opened Wrappers

  /** Direction of a transaction; the amount itself is never negative. */
  datatype TransactionType = Income | Expense

  /** The string stored for a transaction type (the enum's `value`). */
  function TransactionTypeValue(t: TransactionType): string
  {
    match t
    case Income => "income"
    case Expense => "expense"
  }

  /** Building the enum from a string: exactly the two stored values are accepted. */
  function ParseTransactionType(s: string): (r: Option<TransactionType>)
    ensures r.Some? <==> s == "income" || s == "expense"
    ensures r.Some? ==> TransactionTypeValue(r.value) == s
  {
    if s == "income" then Some(Income)
    else if s == "expense" then Some(Expense)
    else None
  }

  /** Writing a type out and reading it back gives the same type. */
  lemma TransactionTypeRoundTrip(t: TransactionType)
    ensures ParseTransactionType(TransactionTypeValue(t)) == Some(t)
  {
  }

  /** The type a transaction gets when none is given. */
  const DefaultTransactionType: TransactionType := Expense

  /** How often a budget is meant to recur; informational only. */
  datatype BudgetPeriod = Weekly | Monthly | Yearly | Custom

  function BudgetPeriodValue(p: BudgetPeriod): string
  {
    match p
    case Weekly => "weekly"
    case Monthly => "monthly"
    case Yearly => "yearly"
    case Custom => "custom"
  }

  /** Building the enum from a string: exactly the four stored values are accepted. */
  function ParseBudgetPeriod(s: string): (r: Option<BudgetPeriod>)
    ensures r.Some? <==> s in {"weekly", "monthly", "yearly", "custom"}
    ensures r.Some? ==> BudgetPeriodValue(r.value) == s
  {
    if s == "weekly" then Some(Weekly)
    else if s == "monthly" then Some(Monthly)
    else if s == "yearly" then Some(Yearly)
    else if s == "custom" then Some(Custom)
    else None
  }

  /** Writing a period out and reading it back gives the same period. */
  lemma BudgetPeriodRoundTrip(p: BudgetPeriod)
    ensures ParseBudgetPeriod(BudgetPeriodValue(p)) == Some(p)
  {
  }

  /** One ledger row. `date` is the text the user entered, normally `YYYY-MM-DD`. */
  datatype Transaction = Transaction(
    id: int,
    userId: int,
    amount: real,
    category: string,
    date: string,
    description: Option<string>,
    paymentMethod: string,
    transactionType: TransactionType)
  {
    predicate IsIncome() { transactionType == Income }
    predicate IsExpense() { transactionType == Expense }
  }

  /** Every transaction is either income or expense, never both. */
  lemma IncomeOrExpense(t: Transaction)
    ensures t.IsIncome() <==> !t.IsExpense()
  {
  }

  /**
   * A spending limit for one category. `endDate` absent or empty means the
   * budget has no end; `createdAt` is the store's creation stamp, modelled
   * as an insertion counter.
   */
  datatype Budget = Budget(
    id: int,
    userId: int,
    category: string,
    allocatedAmount: real,
    period: BudgetPeriod,
    startDate: string,
    endDate: Option<string>,
    createdAt: nat)

  /** A budget joined with what was spent against it. */
  datatype BudgetAnalytics = BudgetAnalytics(
    budget: Budget,
    spentAmount: real,
    remainingAmount: real,
    percentageUsed: real,
    isOverspent: bool)

  /**
   * Builds the analytics record of `budget` for `spent`: the remainder may
   * go negative, the percentage is only computed for a positive allocation
   * (it stays 0 otherwise), and overspending is strict.
   */
  function MakeBudgetAnalytics(budget: Budget, spent: real): (a: BudgetAnalytics)
    ensures a.budget == budget && a.spentAmount == spent
    ensures a.remainingAmount + spent == budget.allocatedAmount
    ensures a.isOverspent <==> spent > budget.allocatedAmount
    ensures a.isOverspent <==> a.remainingAmount < 0.0
    ensures budget.allocatedAmount > 0.0 ==> a.percentageUsed * budget.allocatedAmount == spent * 100.0
    ensures budget.allocatedAmount > 0.0 ==> (a.isOverspent <==> a.percentageUsed > 100.0)
    ensures budget.allocatedAmount <= 0.0 ==> a.percentageUsed == 0.0
  {
    var limit := budget.allocatedAmount;
    var percentage := if limit > 0.0 then spent / limit * 100.0 else 0.0;
    if limit > 0.0 then
      PercentageFacts(spent, limit, percentage);
      BudgetAnalytics(budget, spent, limit - spent, percentage, spent > limit)
    else
      BudgetAnalytics(budget, spent, limit - spent, percentage, spent > limit)
  }

  /** `spent / limit * 100` scaled back, and compared with 100 and with a threshold. */
  lemma PercentageFacts(spent: real, limit: real, percentage: real)
    requires limit > 0.0 && percentage == spent / limit * 100.0
    ensures percentage * limit == spent * 100.0
    ensures percentage > 100.0 <==> spent > limit
    ensures percentage > 80.0 <==> spent * 100.0 > 80.0 * limit
  {
    ScaledComparisons(spent, limit, percentage);
  }

  lemma ScaledComparisons(spent: real, limit: real, percentage: real)
    requires limit > 0.0 && percentage * limit == spent * 100.0
    ensures percentage > 100.0 <==> spent > limit
    ensures percentage > 80.0 <==> spent * 100.0 > 80.0 * limit
  {
    assert percentage > 100.0 <==> spent > limit by {
      Scale(percentage, 100.0, limit);
      Scale(spent, limit, 100.0);
    }
    AboveThreshold(spent, limit, percentage);
  }

  lemma AboveThreshold(spent: real, limit: real, percentage: real)
    requires limit > 0.0 && percentage * limit == spent * 100.0
    ensures percentage > 80.0 <==> spent * 100.0 > 80.0 * limit
  {
    Scale(percentage, 80.0, limit);
  }

  /** For a positive factor `c`, `x > y <==> x * c > y * c`. */
  lemma Scale(x: real, y: real, c: real)
    requires c > 0.0
    ensures x > y <==> x * c > y * c
  {
    if x > y {
      assert (x - y) * c > 0.0;
    } else {
      assert (y - x) * c >= 0.0;
    }
  }

  /** Totals of a user's ledger. */
  datatype FinancialSummary = FinancialSummary(
    totalIncome: real,
    totalExpense: real,
    netBalance: real,
    incomeByCategory: map<string, real>,
    expenseByCategory: map<string, real>,
    expenseByPaymentMethod: map<string, real>)

  /**
   * Builds a summary; the net balance is always recomputed from the two
   * totals, whatever value is passed for it.
   */
  function MakeFinancialSummary(
    totalIncome: real, totalExpense: real, netBalance: real,
    incomeByCategory: map<string, real>, expenseByCategory: map<string, real>,
    expenseByPaymentMethod: map<string, real>): (s: FinancialSummary)
    ensures s.netBalance + s.totalExpense == s.totalIncome
    ensures s.totalIncome == totalIncome && s.totalExpense == totalExpense
    ensures s.incomeByCategory == incomeByCategory && s.expenseByCategory == expenseByCategory
    ensures s.expenseByPaymentMethod == expenseByPaymentMethod
  {
    FinancialSummary(totalIncome, totalExpense, totalIncome - totalExpense,
                     incomeByCategory, expenseByCategory, expenseByPaymentMethod)
  }
}
