/**
 * The transaction service: validated creation, ownership-checked update and
 * deletion, and the aggregations behind the dashboard (the financial
 * summary and the daily and monthly spending series).
 */
module TransactionServices {
  import opened Wrappers
  import opened Models
  import opened Seqs
  import opened Sums
  import opened TransactionRepositories
  import Text

  /** The failures the service reports, each with its message. */
  datatype TransactionError =
    | MissingField        // "Category and amount are required"
    | AmountNotPositive   // "Amount must be greater than zero"
    | BadDateFormat       // "Date must be in YYYY-MM-DD format"
    | NotFound            // "Transaction not found"
    | Unauthorized        // "Unauthorized to delete this transaction" / "... update ..."
    | OperationFailed     // any exception caught by the service, or a failed delete

  /**
   * The checks of `create_transaction`, in their order. An unknown type
   * string makes building the enum raise, which the service reports as a
   * failure to create.
   */
  function CheckNewTransaction(category: string, amount: Option<real>, date: string,
                               transactionType: string, validDate: string -> bool): (r: Outcome<TransactionError>)
    ensures r == Fail(MissingField) <==> category == "" || amount.None?
    ensures r == Fail(AmountNotPositive) <==> category != "" && amount.Some? && amount.value <= 0.0
    ensures r == Fail(BadDateFormat) <==>
      category != "" && amount.Some? && amount.value > 0.0 && !validDate(date)
    ensures r == Fail(OperationFailed) <==>
      && category != "" && amount.Some? && amount.value > 0.0 && validDate(date)
      && ParseTransactionType(transactionType).None?
    ensures r == Pass <==>
      && category != "" && amount.Some? && amount.value > 0.0 && validDate(date)
      && ParseTransactionType(transactionType).Some?
  {
    if category == "" || amount.None? then Fail(MissingField)
    else if amount.value <= 0.0 then Fail(AmountNotPositive)
    else if !validDate(date) then Fail(BadDateFormat)
    else if ParseTransactionType(transactionType).None? then Fail(OperationFailed)
    else Pass
  }

  /**
   * The `YYYY-MM` key of a date: the first two `-`-separated pieces joined
   * by `-`; a date with no `-` has no key and is skipped.
   */
  function YearMonth(date: string): (r: Option<string>)
    ensures r.Some? <==> '-' in date
  {
    Text.SplitHasTwoParts(date, '-');
    var parts := Text.Split(date, '-');
    if |parts| >= 2 then Some(parts[0] + "-" + parts[1]) else None
  }

  function MonthKey(t: Transaction): Option<string> { YearMonth(t.date) }

  /** For a `YYYY-MM-DD` date the month key is its first seven characters. */
  lemma YearMonthOfIsoDate(date: string)
    requires |date| == 10 && date[4] == '-' && date[7] == '-'
    requires '-' !in date[..4] && '-' !in date[5..7]
    ensures YearMonth(date) == Some(date[..7])
  {
    var y, rest := date[..4], date[4..];
    assert date == y + rest;
    Text.SplitPrefix(y, rest, '-');
    assert rest == ['-'] + date[5..];
    assert Text.Split(rest, '-') == [""] + Text.Split(date[5..], '-');
    var m, rest' := date[5..7], date[7..];
    assert date[5..] == m + rest';
    Text.SplitPrefix(m, rest', '-');
    assert rest' == ['-'] + date[8..];
    assert Text.Split(rest', '-')[0] == "";
    var parts := Text.Split(date, '-');
    assert parts[0] == y && parts[1] == m;
    assert date[..7] == y + "-" + m;
  }

  /** The label of a month: the formatted name when the key parses, else the key itself. */
  function LabelFor(monthLabel: string -> Option<string>, key: string): (r: string)
    ensures monthLabel(key).Some? ==> r == monthLabel(key).value
    ensures monthLabel(key).None? ==> r == key
  {
    match monthLabel(key)
    case Some(name) => name
    case None => key
  }

  function OfUserTypeAndMethod(u: int, ty: TransactionType, m: string): Transaction -> bool
  {
    (t: Transaction) => t.userId == u && t.transactionType == ty && t.paymentMethod == m
  }

  function ExpenseOn(u: int, d: string): Transaction -> bool
  {
    (t: Transaction) => t.userId == u && t.transactionType == Expense && t.date == d
  }

  function ExpenseInMonth(u: int, k: string): Transaction -> bool
  {
    (t: Transaction) => t.userId == u && t.transactionType == Expense && YearMonth(t.date) == Some(k)
  }

  /** The user's expenses whose date has a month key. */
  function DatedExpense(u: int): Transaction -> bool
  {
    (t: Transaction) => t.userId == u && t.transactionType == Expense && YearMonth(t.date).Some?
  }

  /**
   * The accumulator loop the three aggregations share: for each row with a
   * key, `totals[key] = totals.get(key, 0) + amount`.
   */
  method AccumulateTotals(rows: seq<Transaction>, key: Transaction -> Option<string>)
    returns (totals: map<string, real>)
    ensures totals == GroupTotals(rows, key)
  {
    totals := map[];
    var i := 0;
    while i < |rows|
      invariant 0 <= i <= |rows|
      invariant totals == GroupTotals(rows[..i], key)
    {
      assert rows[..i + 1][..i] == rows[..i];
      match key(rows[i]) {
        case None =>
        case Some(k) =>
          totals := totals[k := Get(totals, k) + rows[i].amount];
      }
      i := i + 1;
    }
    assert rows[..|rows|] == rows;
  }

  /** The label loop of `get_monthly_spending_data`. */
  method FormatLabels(keys: seq<string>, monthLabel: string -> Option<string>) returns (labels: seq<string>)
    ensures |labels| == |keys|
    ensures forall i :: 0 <= i < |keys| ==> labels[i] == LabelFor(monthLabel, keys[i])
  {
    labels := [];
    var i := 0;
    while i < |keys|
      invariant 0 <= i <= |keys|
      invariant |labels| == i
      invariant forall j :: 0 <= j < i ==> labels[j] == LabelFor(monthLabel, keys[j])
    {
      match monthLabel(keys[i]) {
        case Some(name) =>
          labels := labels + [name];
        case None =>
          labels := labels + [keys[i]];
      }
      i := i + 1;
    }
  }

  /** Keys in strictly ascending order are distinct. */
  lemma AscendingDistinct(keys: seq<string>)
    requires Text.StrictlyAscending(keys)
    ensures Distinct(keys)
  {
    forall i, j | 0 <= i < j < |keys| ensures keys[i] != keys[j] {
      Text.LexLtAsymmetric(keys[i], keys[j]);
    }
  }

  class TransactionService {
    const transactions: TransactionRepository

    constructor(transactions: TransactionRepository)
      ensures this.transactions == transactions
    {
      this.transactions := transactions;
    }

    /**
     * `create_transaction`: on any failed check nothing changes; otherwise
     * the ledger gains exactly the new transaction, with the next id.
     */
    method CreateTransaction(u: int, amount: Option<real>, category: string, date: string,
                             description: Option<string>, paymentMethod: string, transactionType: string,
                             validDate: string -> bool)
      returns (r: Result<Transaction, TransactionError>)
      requires transactions.Valid()
      modifies transactions
      ensures transactions.Valid()
      ensures var check := CheckNewTransaction(category, amount, date, transactionType, validDate);
        && (check.Fail? ==> r == Err(check.error) && unchanged(transactions))
        && (check.Pass? ==>
             && r == Ok(Transaction(old(transactions.nextId), u, amount.value, category, date, description,
                                    paymentMethod, ParseTransactionType(transactionType).value))
             && transactions.rows == old(transactions.rows) + [r.value]
             && transactions.nextId == old(transactions.nextId) + 1)
    {
      var check := CheckNewTransaction(category, amount, date, transactionType, validDate);
      if check.Fail? {
        return Err(check.error);
      }
      var t := Transaction(0, u, amount.value, category, date, description, paymentMethod,
                           ParseTransactionType(transactionType).value);
      var created := transactions.Create(t);
      r := Ok(created);
    }

    /**
     * `delete_transaction`: an absent transaction and another user's
     * transaction are refused without change; the owner's is removed.
     */
    method DeleteTransaction(id: int, u: int) returns (r: Outcome<TransactionError>)
      requires transactions.Valid()
      modifies transactions
      ensures transactions.Valid()
      ensures var t := old(transactions.GetById(id));
        && (t.None? ==> r == Fail(NotFound) && unchanged(transactions))
        && (t.Some? && t.value.userId != u ==> r == Fail(Unauthorized) && unchanged(transactions))
        && (t.Some? && t.value.userId == u ==>
             && r == Pass
             && transactions.rows == Where(old(transactions.rows), NotId(id))
             && transactions.nextId == old(transactions.nextId))
    {
      var t := transactions.GetById(id);
      if t.None? {
        return Fail(NotFound);
      }
      if t.value.userId != u {
        return Fail(Unauthorized);
      }
      var ok := transactions.Delete(id);
      r := if ok then Pass else Fail(OperationFailed);
    }

    /**
     * `update_transaction`: unless the stored transaction exists and belongs
     * to the user, nothing changes; otherwise its fields are overwritten,
     * keeping its id and owner. The new fields are not validated.
     */
    method UpdateTransaction(t: Transaction, u: int) returns (r: Outcome<TransactionError>)
      requires transactions.Valid()
      modifies transactions
      ensures transactions.Valid()
      ensures var e := old(transactions.GetById(t.id));
        && (e.None? || e.value.userId != u ==> r == Fail(Unauthorized) && unchanged(transactions))
        && (e.Some? && e.value.userId == u ==>
             && r == Pass
             && transactions.nextId == old(transactions.nextId)
             && |transactions.rows| == |old(transactions.rows)|
             && forall i :: 0 <= i < |transactions.rows| ==>
                  transactions.rows[i] ==
                    if old(transactions.rows)[i].id == t.id then Overwrite(old(transactions.rows)[i], t)
                    else old(transactions.rows)[i])
    {
      var e := transactions.GetById(t.id);
      if e.None? || e.value.userId != u {
        return Fail(Unauthorized);
      }
      var _ := transactions.Update(t);
      r := Pass;
    }

    /**
     * `get_financial_summary`: the two totals, the two category breakdowns,
     * and the user's expenses grouped by payment method; the net balance is
     * income minus expense.
     */
    method GetFinancialSummary(u: int) returns (s: FinancialSummary)
      ensures s.totalIncome == transactions.GetTotalByType(u, Income)
      ensures s.totalExpense == transactions.GetTotalByType(u, Expense)
      ensures s.netBalance == s.totalIncome - s.totalExpense
      ensures s.incomeByCategory == transactions.GetCategoryTotals(u, Income)
      ensures s.expenseByCategory == transactions.GetCategoryTotals(u, Expense)
      ensures s.expenseByPaymentMethod == GroupTotals(transactions.GetByUserAndType(u, Expense), PaymentMethodKey)
    {
      var totalIncome := transactions.GetTotalByType(u, Income);
      var totalExpense := transactions.GetTotalByType(u, Expense);
      var incomeByCategory := transactions.GetCategoryTotals(u, Income);
      var expenseByCategory := transactions.GetCategoryTotals(u, Expense);
      var expenses := transactions.GetByUserAndType(u, Expense);
      var byMethod := AccumulateTotals(expenses, PaymentMethodKey);
      s := MakeFinancialSummary(totalIncome, totalExpense, 0.0, incomeByCategory, expenseByCategory, byMethod);
    }

    /**
     * The payment-method breakdown of the summary holds exactly the methods
     * the user paid expenses with, each mapped to their total.
     */
    lemma PaymentMethodTotals(u: int, m: string)
      ensures var totals := GroupTotals(transactions.GetByUserAndType(u, Expense), PaymentMethodKey);
        && (m in totals <==> exists t :: t in transactions.rows && OfUserTypeAndMethod(u, Expense, m)(t))
        && Get(totals, m) == Total(Where(transactions.rows, OfUserTypeAndMethod(u, Expense, m)))
    {
      GroupedListing(transactions.rows, OfUserAndType(u, Expense), PaymentMethodKey, m,
                     OfUserTypeAndMethod(u, Expense, m));
    }

    /**
     * The payment-method breakdown adds up to the total expense, when read
     * under any list of distinct methods that covers it.
     */
    lemma PaymentMethodsAddUp(u: int, methods: seq<string>)
      requires Distinct(methods)
      requires forall m :: m in GroupTotals(transactions.GetByUserAndType(u, Expense), PaymentMethodKey) ==> m in methods
      ensures SumOf(Lookup(GroupTotals(transactions.GetByUserAndType(u, Expense), PaymentMethodKey), methods))
        == transactions.GetTotalByType(u, Expense)
    {
      GroupedListingAddsUp(transactions.rows, OfUserAndType(u, Expense), PaymentMethodKey, methods,
                           OfUserAndType(u, Expense));
    }

    /**
     * `get_daily_spending_data`: one label per date the user has expenses
     * on, in ascending order, each paired with that date's expense total;
     * the amounts add up to the total expense.
     */
    method GetDailySpendingData(u: int) returns (labels: seq<string>, amounts: seq<real>)
      ensures Text.StrictlyAscending(labels)
      ensures forall d :: d in labels <==> exists t :: t in transactions.rows && ExpenseOn(u, d)(t)
      ensures |amounts| == |labels|
      ensures forall i :: 0 <= i < |labels| ==> amounts[i] == Total(Where(transactions.rows, ExpenseOn(u, labels[i])))
      ensures SumOf(amounts) == transactions.GetTotalByType(u, Expense)
    {
      var expenses := transactions.GetByUserAndType(u, Expense);
      var daily := AccumulateTotals(expenses, DateKey);
      labels := Text.SortedKeys(daily.Keys);
      amounts := Lookup(daily, labels);
      DailyFacts(u, daily, labels, amounts);
    }

    /** What the daily series means, for the grouped expenses read back under their sorted dates. */
    lemma DailyFacts(u: int, daily: map<string, real>, labels: seq<string>, amounts: seq<real>)
      requires daily == GroupTotals(transactions.GetByUserAndType(u, Expense), DateKey)
      requires Text.StrictlyAscending(labels) && (forall d :: d in labels <==> d in daily)
      requires amounts == Lookup(daily, labels)
      ensures forall d :: d in labels <==> exists t :: t in transactions.rows && ExpenseOn(u, d)(t)
      ensures forall i :: 0 <= i < |labels| ==> amounts[i] == Total(Where(transactions.rows, ExpenseOn(u, labels[i])))
      ensures SumOf(amounts) == transactions.GetTotalByType(u, Expense)
    {
      var p := OfUserAndType(u, Expense);
      forall d ensures (d in daily <==> exists t :: t in transactions.rows && ExpenseOn(u, d)(t))
        && Get(daily, d) == Total(Where(transactions.rows, ExpenseOn(u, d)))
      {
        GroupedListing(transactions.rows, p, DateKey, d, ExpenseOn(u, d));
      }
      LookupSpec(daily, labels);
      AscendingDistinct(labels);
      GroupedListingAddsUp(transactions.rows, p, DateKey, labels, p);
    }

    /**
     * `get_monthly_spending_data`: one entry per month key of the user's
     * expenses, in ascending key order, labelled by `monthLabel` where the
     * key parses as a month and by the key itself otherwise, each paired
     * with that month's expense total; the amounts add up to the expenses
     * whose date has a month key.
     */
    method GetMonthlySpendingData(u: int, monthLabel: string -> Option<string>)
      returns (labels: seq<string>, amounts: seq<real>, ghost months: seq<string>)
      ensures Text.StrictlyAscending(months)
      ensures forall k :: k in months <==> exists t :: t in transactions.rows && ExpenseInMonth(u, k)(t)
      ensures |labels| == |months| && |amounts| == |months|
      ensures forall i :: 0 <= i < |months| ==> labels[i] == LabelFor(monthLabel, months[i])
      ensures forall i :: 0 <= i < |months| ==>
        amounts[i] == Total(Where(transactions.rows, ExpenseInMonth(u, months[i])))
      ensures SumOf(amounts) == Total(Where(transactions.rows, DatedExpense(u)))
    {
      var expenses := transactions.GetByUserAndType(u, Expense);
      var monthly := AccumulateTotals(expenses, MonthKey);
      var keys := Text.SortedKeys(monthly.Keys);
      labels := FormatLabels(keys, monthLabel);
      amounts := Lookup(monthly, keys);
      months := keys;
      MonthlyFacts(u, monthly, keys, amounts);
    }

    /** What the monthly series means, for the grouped expenses read back under their sorted keys. */
    lemma MonthlyFacts(u: int, monthly: map<string, real>, keys: seq<string>, amounts: seq<real>)
      requires monthly == GroupTotals(transactions.GetByUserAndType(u, Expense), MonthKey)
      requires Text.StrictlyAscending(keys) && (forall k :: k in keys <==> k in monthly)
      requires amounts == Lookup(monthly, keys)
      ensures forall k :: k in keys <==> exists t :: t in transactions.rows && ExpenseInMonth(u, k)(t)
      ensures forall i :: 0 <= i < |keys| ==> amounts[i] == Total(Where(transactions.rows, ExpenseInMonth(u, keys[i])))
      ensures SumOf(amounts) == Total(Where(transactions.rows, DatedExpense(u)))
    {
      var p := OfUserAndType(u, Expense);
      forall k ensures (k in monthly <==> exists t :: t in transactions.rows && ExpenseInMonth(u, k)(t))
        && Get(monthly, k) == Total(Where(transactions.rows, ExpenseInMonth(u, k)))
      {
        GroupedListing(transactions.rows, p, MonthKey, k, ExpenseInMonth(u, k));
      }
      LookupSpec(monthly, keys);
      AscendingDistinct(keys);
      GroupedListingAddsUp(transactions.rows, p, MonthKey, keys, DatedExpense(u));
    }
  }
}
