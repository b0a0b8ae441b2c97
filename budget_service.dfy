/**
 * The budget service: guarded changes to the budget table, and the
 * analytics read paths (spent per budget, warnings, the overspent list and
 * the breakdown by category) computed over the ledger.
 */
module BudgetServices {
  import opened Wrappers
  import opened Models
  import opened Seqs
  import opened Sums
  import opened TransactionRepositories
  import opened BudgetRepositories
  import Text

  /** Why a budget operation failed; each stands for one message of the service. */
  datatype BudgetError =
    | InvalidInput            // "Category and valid allocated amount are required"
    | AlreadyExists           // "Budget already exists for this category. Use update instead."
    | BadDateFormat           // "Dates must be in YYYY-MM-DD format"
    | NotFoundOrUnauthorized  // "Budget not found or unauthorized"
    | InvalidAmount           // "Valid allocated amount is required"
    | OperationFailed         // the generic failure: an exception, or the store reporting no row

  /**
   * The dates of a new budget are valid: the start date parses, and so does
   * the end date when one is given (an empty end date is not checked).
   */
  predicate DatesValid(start: string, end: Option<string>, validDate: string -> bool)
    ensures DatesValid(start, end, validDate) <==>
      validDate(start) && (end.Some? && end.value != "" ==> validDate(end.value))
  {
    validDate(start) && (UpperBound(end).Some? ==> validDate(UpperBound(end).value))
  }

  /**
   * The checks of `create_budget`, in their order: inputs, then an existing
   * budget for the same (user, category), then the dates, then the period
   * (an unknown period makes the enum constructor raise, which the service
   * turns into its generic failure).
   */
  function CheckNewBudget(category: string, allocation: real, taken: bool, period: string,
                          start: string, end: Option<string>, validDate: string -> bool): (r: Outcome<BudgetError>)
    ensures r == Fail(InvalidInput) <==> category == "" || allocation <= 0.0
    ensures r == Fail(AlreadyExists) <==> category != "" && allocation > 0.0 && taken
    ensures r == Fail(BadDateFormat) <==>
      category != "" && allocation > 0.0 && !taken && !DatesValid(start, end, validDate)
    ensures r == Fail(OperationFailed) <==>
      category != "" && allocation > 0.0 && !taken && DatesValid(start, end, validDate)
      && ParseBudgetPeriod(period).None?
    ensures r == Pass <==>
      category != "" && allocation > 0.0 && !taken && DatesValid(start, end, validDate)
      && ParseBudgetPeriod(period).Some?
  {
    if category == "" || allocation <= 0.0 then Fail(InvalidInput)
    else if taken then Fail(AlreadyExists)
    else if !DatesValid(start, end, validDate) then Fail(BadDateFormat)
    else if ParseBudgetPeriod(period).None? then Fail(OperationFailed)
    else Pass
  }

  /** An expense of the budget's category (the test inside `_calculate_spent_amount`'s loop). */
  function ExpenseIn(category: string): Transaction -> bool
  {
    (t: Transaction) => t.category == category && t.IsExpense()
  }

  /**
   * The rows that count toward a budget: the user's expenses in the budget's
   * category, dated inside the budget's window.
   */
  function CountsToward(u: int, b: Budget): Transaction -> bool
  {
    (t: Transaction) => InDateRange(u, b.startDate, b.endDate)(t) && ExpenseIn(b.category)(t)
  }

  /** Spelled out: which rows count toward a budget. */
  lemma CountsTowardMeaning(u: int, b: Budget, t: Transaction)
    ensures CountsToward(u, b)(t) <==>
      && t.userId == u && t.IsExpense() && t.category == b.category
      && Text.LexLe(b.startDate, t.date)
      && (b.endDate.Some? && b.endDate.value != "" ==> Text.LexLe(t.date, b.endDate.value))
  {
    var bound := UpperBound(b.endDate);
    assert InDateRange(u, b.startDate, b.endDate)(t) <==>
      t.userId == u && Text.LexLe(b.startDate, t.date) && (bound.Some? ==> Text.LexLe(t.date, bound.value));
    assert ExpenseIn(b.category)(t) <==> t.category == b.category && t.IsExpense();
  }

  /**
   * Summing the budget's expenses over the date-range listing gives the
   * spent amount, although the listing is sorted by date.
   */
  lemma SpentOverListing(rows: seq<Transaction>, u: int, b: Budget)
    ensures Total(Where(Listing(rows, InDateRange(u, b.startDate, b.endDate)), ExpenseIn(b.category)))
      == SpentAmount(rows, u, b)
  {
    var window := Where(rows, InDateRange(u, b.startDate, b.endDate));
    SortKeepsTotal(window, ExpenseIn(b.category));
    WhereWhere(rows, InDateRange(u, b.startDate, b.endDate), ExpenseIn(b.category), CountsToward(u, b));
  }

  /** What was spent against a budget. */
  function SpentAmount(rows: seq<Transaction>, u: int, b: Budget): (r: real)
    ensures (forall i :: 0 <= i < |rows| ==> !CountsToward(u, b)(rows[i])) ==> r == 0.0
    ensures (forall i :: 0 <= i < |rows| ==> rows[i].amount >= 0.0) ==> r >= 0.0
  {
    var counted := Where(rows, CountsToward(u, b));
    assert counted != [] ==> counted[0] in counted;
    assert forall i :: 0 <= i < |counted| ==> counted[i] in rows;
    Total(counted)
  }

  /** One more ledger row changes the spent amount by its amount if it counts, else not at all. */
  lemma SpentAppend(rows: seq<Transaction>, t: Transaction, u: int, b: Budget)
    ensures SpentAmount(rows + [t], u, b)
      == SpentAmount(rows, u, b) + (if CountsToward(u, b)(t) then t.amount else 0.0)
  {
    var p := CountsToward(u, b);
    WhereAppend(rows, [t], p);
    var w := if p(t) then [t] else [];
    assert Where([t], p) == Where([], p) + w;
    TotalAppend(Where(rows, p), w);
    if w != [] {
      assert w[..0] == [];
    }
  }

  /** An absent and an empty end date give the same spent amount: both leave the window open. */
  lemma OpenEndedWindows(rows: seq<Transaction>, u: int, b: Budget)
    ensures SpentAmount(rows, u, b.(endDate := None)) == SpentAmount(rows, u, b.(endDate := Some("")))
  {
    var open, empty := b.(endDate := None), b.(endDate := Some(""));
    forall t | t in rows ensures CountsToward(u, open)(t) == CountsToward(u, empty)(t) {
      CountsTowardMeaning(u, open, t);
      CountsTowardMeaning(u, empty, t);
    }
    WhereSame(rows, CountsToward(u, open), CountsToward(u, empty));
  }

  /** The analytics records of `budgets`, one per budget and in the same order. */
  function AnalyticsOf(rows: seq<Transaction>, u: int, budgets: seq<Budget>): (r: seq<BudgetAnalytics>)
    ensures |r| == |budgets|
  {
    if budgets == [] then []
    else
      var last := budgets[|budgets| - 1];
      AnalyticsOf(rows, u, budgets[..|budgets| - 1]) + [MakeBudgetAnalytics(last, SpentAmount(rows, u, last))]
  }

  /** Entry `i` of the analytics is budget `i` with what was spent against it. */
  lemma {:induction false} AnalyticsOfSpec(rows: seq<Transaction>, u: int, budgets: seq<Budget>)
    ensures forall i :: 0 <= i < |budgets| ==>
      AnalyticsOf(rows, u, budgets)[i] == MakeBudgetAnalytics(budgets[i], SpentAmount(rows, u, budgets[i]))
  {
    if budgets != [] {
      var init := budgets[..|budgets| - 1];
      AnalyticsOfSpec(rows, u, init);
      assert forall i :: 0 <= i < |init| ==> budgets[i] == init[i];
    }
  }

  /** One step of the loop that builds the analytics. */
  lemma AnalyticsStep(rows: seq<Transaction>, u: int, budgets: seq<Budget>, i: nat)
    requires i < |budgets|
    ensures AnalyticsOf(rows, u, budgets[..i + 1])
      == AnalyticsOf(rows, u, budgets[..i]) + [MakeBudgetAnalytics(budgets[i], SpentAmount(rows, u, budgets[i]))]
  {
    assert budgets[..i + 1][..i] == budgets[..i];
  }

  /** A budget warning: the two kinds the service reports. */
  datatype Warning =
    | Overspent(category: string, allocation: real, spent: real, overage: real)
    | ApproachingLimit(category: string, allocation: real, spent: real, percentage: real)

  /** At most one warning per budget; overspending takes precedence over the 80% threshold. */
  function WarningFor(a: BudgetAnalytics): (r: Option<Warning>)
    ensures r.Some? && r.value.Overspent? <==> a.isOverspent
    ensures r.Some? && r.value.ApproachingLimit? <==> !a.isOverspent && a.percentageUsed > 80.0
    ensures r.Some? ==>
      r.value.category == a.budget.category && r.value.allocation == a.budget.allocatedAmount
      && r.value.spent == a.spentAmount
    ensures r.Some? && r.value.ApproachingLimit? ==> r.value.percentage == a.percentageUsed
  {
    if a.isOverspent then
      Some(Overspent(a.budget.category, a.budget.allocatedAmount, a.spentAmount, a.spentAmount - a.budget.allocatedAmount))
    else if a.percentageUsed > 80.0 then
      Some(ApproachingLimit(a.budget.category, a.budget.allocatedAmount, a.spentAmount, a.percentageUsed))
    else None
  }

  /**
   * The warning for a budget, in terms of the amounts: overspent exactly
   * when more than the allocation was spent, approaching the limit exactly
   * when a positive allocation is more than 80% but not more than 100% used.
   */
  lemma WarningThresholds(b: Budget, spent: real)
    ensures var w := WarningFor(MakeBudgetAnalytics(b, spent));
      && (w.Some? && w.value.Overspent? <==> spent > b.allocatedAmount)
      && (w.Some? && w.value.ApproachingLimit? <==>
           b.allocatedAmount > 0.0 && spent <= b.allocatedAmount && spent * 100.0 > 80.0 * b.allocatedAmount)
      && (w.Some? ==> w.value.category == b.category && w.value.allocation == b.allocatedAmount && w.value.spent == spent)
      && (w.Some? && w.value.Overspent? ==> w.value.overage == spent - b.allocatedAmount)
      && (w.Some? && w.value.ApproachingLimit? ==> w.value.percentage * b.allocatedAmount == spent * 100.0)
  {
    var a := MakeBudgetAnalytics(b, spent);
    if b.allocatedAmount > 0.0 {
      AboveThreshold(spent, b.allocatedAmount, a.percentageUsed);
    }
  }

  /** Spending the whole allocation is not overspending, but it is past the 80% threshold. */
  lemma FullySpentIsApproaching(b: Budget)
    requires b.allocatedAmount > 0.0
    ensures WarningFor(MakeBudgetAnalytics(b, b.allocatedAmount))
      == Some(ApproachingLimit(b.category, b.allocatedAmount, b.allocatedAmount, 100.0))
  {
    var a := MakeBudgetAnalytics(b, b.allocatedAmount);
    assert a.percentageUsed * b.allocatedAmount == 100.0 * b.allocatedAmount;
    Scale(a.percentageUsed, 100.0, b.allocatedAmount);
    Scale(100.0, a.percentageUsed, b.allocatedAmount);
  }

  /** The warnings of a sequence of analytics, in its order. */
  function WarningsFor(analytics: seq<BudgetAnalytics>): (r: seq<Warning>)
    ensures |r| <= |analytics|
  {
    if analytics == [] then []
    else
      var last := analytics[|analytics| - 1];
      WarningsFor(analytics[..|analytics| - 1]) + (match WarningFor(last) case None => [] case Some(w) => [w])
  }

  /** Warnings of two runs of analytics are the warnings of each, in order. */
  lemma {:induction false} WarningsAppend(a: seq<BudgetAnalytics>, b: seq<BudgetAnalytics>)
    ensures WarningsFor(a + b) == WarningsFor(a) + WarningsFor(b)
  {
    if b != [] {
      assert (a + b)[..|a + b| - 1] == a + b[..|b| - 1];
      WarningsAppend(a, b[..|b| - 1]);
    } else {
      assert a + b == a;
    }
  }

  /**
   * Every warning comes from one of the analytics, and every record that
   * has a warning contributes it.
   */
  lemma {:induction false} WarningsFromAnalytics(analytics: seq<BudgetAnalytics>)
    ensures forall w :: w in WarningsFor(analytics) ==> exists a :: a in analytics && WarningFor(a) == Some(w)
    ensures forall a :: a in analytics && WarningFor(a).Some? ==> WarningFor(a).value in WarningsFor(analytics)
  {
    if analytics != [] {
      var init, last := analytics[..|analytics| - 1], analytics[|analytics| - 1];
      WarningsFromAnalytics(init);
      assert analytics == init + [last];
      assert forall a :: a in analytics <==> a in init || a == last;
    }
  }

  /** One entry of the overspent list. */
  datatype OverspentEntry = OverspentEntry(category: string, allocation: real, spent: real, overage: real)

  function EntryOf(a: BudgetAnalytics): OverspentEntry
  {
    OverspentEntry(a.budget.category, a.budget.allocatedAmount, a.spentAmount, a.spentAmount - a.budget.allocatedAmount)
  }

  function IsOverspent(): BudgetAnalytics -> bool { (a: BudgetAnalytics) => a.isOverspent }

  /** The overspent list, built as the service's loop builds it. */
  function OverspentFor(analytics: seq<BudgetAnalytics>): (r: seq<OverspentEntry>)
    ensures |r| <= |analytics|
    ensures forall e :: e in r ==> e.overage == e.spent - e.allocation
  {
    if analytics == [] then []
    else
      var last := analytics[|analytics| - 1];
      OverspentFor(analytics[..|analytics| - 1]) + (if last.isOverspent then [EntryOf(last)] else [])
  }

  /** The overspent list has one entry per overspent budget, and no other entries. */
  lemma {:induction false} OverspentForSpec(analytics: seq<BudgetAnalytics>)
    ensures |OverspentFor(analytics)| == |Where(analytics, IsOverspent())|
    ensures forall e :: e in OverspentFor(analytics) <==> exists a :: a in analytics && a.isOverspent && e == EntryOf(a)
  {
    if analytics != [] {
      var init, last := analytics[..|analytics| - 1], analytics[|analytics| - 1];
      OverspentForSpec(init);
      assert forall a :: a in analytics <==> a in init || a == last;
    }
  }

  /** The overspent entries among a sequence of warnings. */
  function OverspentWarnings(ws: seq<Warning>): seq<OverspentEntry>
  {
    if ws == [] then []
    else
      var last := ws[|ws| - 1];
      OverspentWarnings(ws[..|ws| - 1])
        + (match last
           case Overspent(c, al, sp, ov) => [OverspentEntry(c, al, sp, ov)]
           case ApproachingLimit(_, _, _, _) => [])
  }

  /** The overspent list matches the `overspent` warnings one to one, in order. */
  lemma {:induction false} OverspentMatchesWarnings(analytics: seq<BudgetAnalytics>)
    ensures OverspentFor(analytics) == OverspentWarnings(WarningsFor(analytics))
  {
    if analytics != [] {
      var init, last := analytics[..|analytics| - 1], analytics[|analytics| - 1];
      OverspentMatchesWarnings(init);
      var ws := WarningsFor(init);
      match WarningFor(last)
      case None =>
        assert WarningsFor(analytics) == ws;
      case Some(w) =>
        var all := WarningsFor(analytics);
        assert all == ws + [w];
        assert all[..|all| - 1] == ws;
    }
  }

  /** One step of the loop that builds the overspent list. */
  lemma OverspentStep(analytics: seq<BudgetAnalytics>, i: nat)
    requires i < |analytics|
    ensures OverspentFor(analytics[..i + 1])
      == OverspentFor(analytics[..i]) + (if analytics[i].isOverspent then [EntryOf(analytics[i])] else [])
  {
    assert analytics[..i + 1][..i] == analytics[..i];
  }

  /** One row of the spending breakdown. */
  datatype BreakdownEntry = BreakdownEntry(budgeted: real, spent: real, remaining: real, percentage: real)

  /** The breakdown row of a budgeted category. */
  function BudgetedEntry(allocation: real, spent: real): (e: BreakdownEntry)
    ensures e.budgeted == allocation && e.spent == spent
    ensures e.remaining + spent == allocation
    ensures allocation > 0.0 ==> e.percentage * allocation == spent * 100.0
    ensures allocation <= 0.0 ==> e.percentage == 0.0
  {
    var percentage := if allocation > 0.0 then spent / allocation * 100.0 else 0.0;
    if allocation > 0.0 then
      PercentageFacts(spent, allocation, percentage);
      BreakdownEntry(allocation, spent, allocation - spent, percentage)
    else
      BreakdownEntry(allocation, spent, allocation - spent, percentage)
  }

  /** The breakdown row of spending without a budget: nothing budgeted, reported as 100%. */
  function UnbudgetedEntry(spent: real): (e: BreakdownEntry)
    ensures e.budgeted == 0.0 && e.spent == spent && e.remaining == -spent && e.percentage == 100.0
  {
    BreakdownEntry(0.0, spent, -spent, 100.0)
  }

  /** `{b.category: b for b in budgets}`; a later budget for the same category wins. */
  function IndexByCategory(budgets: seq<Budget>): (m: map<string, Budget>)
    ensures forall c :: c in m <==> exists b :: b in budgets && b.category == c
    ensures forall c :: c in m ==> m[c] in budgets && m[c].category == c
  {
    if budgets == [] then map[]
    else
      var init, last := budgets[..|budgets| - 1], budgets[|budgets| - 1];
      assert forall b :: b in budgets <==> b in init || b == last;
      IndexByCategory(init)[last.category := last]
  }

  /**
   * The breakdown dictionary built from the budgets indexed by category and
   * the expense totals by category.
   */
  predicate BreakdownMatches(breakdown: map<string, BreakdownEntry>, index: map<string, Budget>, totals: map<string, real>)
  {
    && breakdown.Keys == index.Keys + totals.Keys
    && (forall c :: c in index ==> breakdown[c] == BudgetedEntry(index[c].allocatedAmount, Get(totals, c)))
    && (forall c :: c in totals && c !in index ==> breakdown[c] == UnbudgetedEntry(totals[c]))
  }

  /**
   * The two loops of the breakdown: first every budgeted category, then
   * every category with expenses that has no row yet.
   */
  method BuildBreakdown(index: map<string, Budget>, totals: map<string, real>) returns (breakdown: map<string, BreakdownEntry>)
    ensures BreakdownMatches(breakdown, index, totals)
  {
    breakdown := map[];
    var todo := index.Keys;
    while todo != {}
      invariant todo <= index.Keys
      invariant breakdown.Keys == index.Keys - todo
      invariant forall c :: c in breakdown ==> breakdown[c] == BudgetedEntry(index[c].allocatedAmount, Get(totals, c))
      decreases todo
    {
      var c :| c in todo;
      breakdown := breakdown[c := BudgetedEntry(index[c].allocatedAmount, Get(totals, c))];
      todo := todo - {c};
    }
    todo := totals.Keys;
    while todo != {}
      invariant todo <= totals.Keys
      invariant breakdown.Keys == index.Keys + (totals.Keys - todo)
      invariant forall c :: c in index ==> breakdown[c] == BudgetedEntry(index[c].allocatedAmount, Get(totals, c))
      invariant forall c :: c in breakdown && c !in index ==> breakdown[c] == UnbudgetedEntry(totals[c])
      decreases todo
    {
      var c :| c in todo;
      if c !in breakdown {
        breakdown := breakdown[c := UnbudgetedEntry(totals[c])];
      }
      todo := todo - {c};
    }
  }

  /** The loop of `_calculate_spent_amount`: the expenses of the category among `txs`, summed. */
  method SumExpenses(txs: seq<Transaction>, category: string) returns (spent: real)
    ensures spent == Total(Where(txs, ExpenseIn(category)))
  {
    var q := ExpenseIn(category);
    spent := 0.0;
    var i := 0;
    while i < |txs|
      invariant 0 <= i <= |txs|
      invariant spent == Total(Where(txs[..i], q))
    {
      TotalWhereStep(txs, i, q);
      if txs[i].category == category && txs[i].transactionType == Expense {
        spent := spent + txs[i].amount;
      }
      i := i + 1;
    }
    assert txs[..|txs|] == txs;
  }

  /** One step of the loop that collects the warnings. */
  lemma WarningsStep(analytics: seq<BudgetAnalytics>, i: nat)
    requires i < |analytics|
    ensures WarningsFor(analytics[..i + 1])
      == WarningsFor(analytics[..i]) + (match WarningFor(analytics[i]) case None => [] case Some(w) => [w])
  {
    assert analytics[..i + 1][..i] == analytics[..i];
  }

  /** The loop of `get_budget_warnings`. */
  method CollectWarnings(analytics: seq<BudgetAnalytics>) returns (warnings: seq<Warning>)
    ensures warnings == WarningsFor(analytics)
  {
    warnings := [];
    var i := 0;
    while i < |analytics|
      invariant 0 <= i <= |analytics|
      invariant warnings == WarningsFor(analytics[..i])
    {
      var a := analytics[i];
      WarningsStep(analytics, i);
      if a.isOverspent {
        warnings := warnings + [Overspent(a.budget.category, a.budget.allocatedAmount, a.spentAmount,
                                          a.spentAmount - a.budget.allocatedAmount)];
      } else if a.percentageUsed > 80.0 {
        warnings := warnings + [ApproachingLimit(a.budget.category, a.budget.allocatedAmount, a.spentAmount,
                                                 a.percentageUsed)];
      }
      i := i + 1;
    }
    assert analytics[..|analytics|] == analytics;
  }

  /** The loop of `get_overspent_categories`. */
  method CollectOverspent(analytics: seq<BudgetAnalytics>) returns (overspent: seq<OverspentEntry>)
    ensures overspent == OverspentFor(analytics)
  {
    overspent := [];
    var i := 0;
    while i < |analytics|
      invariant 0 <= i <= |analytics|
      invariant overspent == OverspentFor(analytics[..i])
    {
      var a := analytics[i];
      OverspentStep(analytics, i);
      if a.isOverspent {
        overspent := overspent + [OverspentEntry(a.budget.category, a.budget.allocatedAmount, a.spentAmount,
                                                 a.spentAmount - a.budget.allocatedAmount)];
      }
      i := i + 1;
    }
    assert analytics[..|analytics|] == analytics;
  }

  class BudgetService {
    const budgets: BudgetRepository
    const transactions: TransactionRepository

    constructor(budgets: BudgetRepository, transactions: TransactionRepository)
      ensures this.budgets == budgets && this.transactions == transactions
    {
      this.budgets := budgets;
      this.transactions := transactions;
    }

    /**
     * `create_budget`: on any failed check nothing changes; otherwise the
     * table gains exactly the new budget, with the next id and stamp.
     */
    method CreateBudget(u: int, category: string, allocation: real, period: string,
                        start: string, end: Option<string>, validDate: string -> bool)
      returns (r: Result<Budget, BudgetError>)
      requires budgets.Valid()
      modifies budgets
      ensures budgets.Valid()
      ensures var check := CheckNewBudget(category, allocation, old(budgets.GetByCategory(u, category)).Some?,
                                          period, start, end, validDate);
        && (check.Fail? ==> r == Err(check.error) && unchanged(budgets))
        && (check.Pass? ==>
             && r == Ok(Budget(old(budgets.nextId), u, category, allocation, ParseBudgetPeriod(period).value,
                               start, end, old(budgets.clock)))
             && budgets.rows == old(budgets.rows) + [r.value]
             && budgets.nextId == old(budgets.nextId) + 1 && budgets.clock == old(budgets.clock) + 1)
    {
      var check := CheckNewBudget(category, allocation, budgets.GetByCategory(u, category).Some?,
                                  period, start, end, validDate);
      if check.Fail? {
        return Err(check.error);
      }
      var b := Budget(0, u, category, allocation, ParseBudgetPeriod(period).value, start, end, 0);
      var created := budgets.Create(b);
      match created
      case None =>
        r := Err(OperationFailed);
      case Some(c) =>
        r := Ok(c);
    }

    /**
     * `update_budget_allocation`: the ownership check comes first (an absent
     * budget and another user's budget give the same failure), then the
     * amount; only a passing call changes anything, and then only that
     * budget's allocation.
     */
    method UpdateBudgetAllocation(id: int, amount: real, u: int) returns (r: Outcome<BudgetError>)
      requires budgets.Valid()
      modifies budgets
      ensures budgets.Valid()
      ensures var b := old(budgets.GetById(id));
        && (b.None? || b.value.userId != u ==> r == Fail(NotFoundOrUnauthorized) && unchanged(budgets))
        && (b.Some? && b.value.userId == u && amount <= 0.0 ==> r == Fail(InvalidAmount) && unchanged(budgets))
        && (b.Some? && b.value.userId == u && amount > 0.0 ==>
             && r == Pass
             && budgets.nextId == old(budgets.nextId) && budgets.clock == old(budgets.clock)
             && |budgets.rows| == |old(budgets.rows)|
             && forall i :: 0 <= i < |budgets.rows| ==>
                  budgets.rows[i] == if old(budgets.rows)[i].id == id
                                     then Reallocate(old(budgets.rows)[i], amount) else old(budgets.rows)[i])
    {
      var b := budgets.GetById(id);
      if b.None? || b.value.userId != u {
        return Fail(NotFoundOrUnauthorized);
      }
      if amount <= 0.0 {
        return Fail(InvalidAmount);
      }
      var ok := budgets.UpdateAllocation(id, amount);
      r := if ok then Pass else Fail(OperationFailed);
    }

    /**
     * `delete_budget`: the same ownership check; on success exactly that
     * budget is gone and the others remain in order.
     */
    method DeleteBudget(id: int, u: int) returns (r: Outcome<BudgetError>)
      requires budgets.Valid()
      modifies budgets
      ensures budgets.Valid()
      ensures var b := old(budgets.GetById(id));
        && (b.None? || b.value.userId != u ==> r == Fail(NotFoundOrUnauthorized) && unchanged(budgets))
        && (b.Some? && b.value.userId == u ==>
             && r == Pass && budgets.rows == Where(old(budgets.rows), NotBudgetId(id)) && budgets.GetById(id).None?
             && budgets.nextId == old(budgets.nextId) && budgets.clock == old(budgets.clock))
    {
      var b := budgets.GetById(id);
      if b.None? || b.value.userId != u {
        return Fail(NotFoundOrUnauthorized);
      }
      var ok := budgets.Delete(id);
      r := if ok then Pass else Fail(OperationFailed);
    }

    /**
     * `_calculate_spent_amount`: sums, over the user's rows in the budget's
     * date window, the expenses of the budget's category.
     */
    method CalculateSpentAmount(u: int, b: Budget) returns (spent: real)
      ensures spent == SpentAmount(transactions.rows, u, b)
    {
      var txs := transactions.GetByDateRange(u, b.startDate, b.endDate);
      spent := SumExpenses(txs, b.category);
      SpentOverListing(transactions.rows, u, b);
    }

    /** `get_budget_analytics`: one record per budget of the user, newest budget first. */
    method GetBudgetAnalytics(u: int) returns (analytics: seq<BudgetAnalytics>)
      requires budgets.Valid()
      ensures analytics == AnalyticsOf(transactions.rows, u, budgets.GetByUserId(u))
    {
      var bs := budgets.GetByUserId(u);
      analytics := [];
      var i := 0;
      while i < |bs|
        invariant 0 <= i <= |bs|
        invariant analytics == AnalyticsOf(transactions.rows, u, bs[..i])
      {
        var spent := CalculateSpentAmount(u, bs[i]);
        AnalyticsStep(transactions.rows, u, bs, i);
        analytics := analytics + [MakeBudgetAnalytics(bs[i], spent)];
        i := i + 1;
      }
      assert bs[..|bs|] == bs;
    }

    /** `get_budget_warnings`: the warnings of the analytics, in their order. */
    method GetBudgetWarnings(u: int) returns (warnings: seq<Warning>)
      requires budgets.Valid()
      ensures warnings == WarningsFor(AnalyticsOf(transactions.rows, u, budgets.GetByUserId(u)))
    {
      var analytics := GetBudgetAnalytics(u);
      warnings := CollectWarnings(analytics);
    }

    /** `get_overspent_categories`: the overspent analytics, in their order. */
    method GetOverspentCategories(u: int) returns (overspent: seq<OverspentEntry>)
      requires budgets.Valid()
      ensures overspent == OverspentFor(AnalyticsOf(transactions.rows, u, budgets.GetByUserId(u)))
    {
      var analytics := GetBudgetAnalytics(u);
      overspent := CollectOverspent(analytics);
    }

    /**
     * `get_spending_breakdown_by_category`: one row per category that is
     * budgeted or has expenses, using all-time expense totals; a budgeted
     * category compares its spending with its allocation, an unbudgeted one
     * gets the 100% sentinel.
     */
    method GetSpendingBreakdownByCategory(u: int) returns (breakdown: map<string, BreakdownEntry>)
      requires budgets.Valid()
      ensures BreakdownMatches(breakdown, IndexByCategory(budgets.GetByUserId(u)), transactions.GetCategoryTotals(u, Expense))
    {
      breakdown := BuildBreakdown(IndexByCategory(budgets.GetByUserId(u)), transactions.GetCategoryTotals(u, Expense));
    }

    /** A budget's row in the breakdown compares its category's all-time expenses with its allocation. */
    lemma BreakdownBudgeted(u: int, breakdown: map<string, BreakdownEntry>, b: Budget)
      requires budgets.Valid()
      requires BreakdownMatches(breakdown, IndexByCategory(budgets.GetByUserId(u)), transactions.GetCategoryTotals(u, Expense))
      requires b in budgets.rows && b.userId == u
      ensures b.category in breakdown
      ensures breakdown[b.category]
        == BudgetedEntry(b.allocatedAmount, Total(Where(transactions.rows, OfUserTypeAndCategory(u, Expense, b.category))))
    {
      var index := IndexByCategory(budgets.GetByUserId(u));
      var totals := transactions.GetCategoryTotals(u, Expense);
      assert b in budgets.GetByUserId(u);
      assert b.category in index;
      KeyUnique(budgets.rows, budgets.nextId, budgets.clock, index[b.category], b);
      if b.category !in totals {
        TotalWhereNone(transactions.rows, OfUserTypeAndCategory(u, Expense, b.category));
      }
    }

    /** A category without a budget has the sentinel row for its all-time expenses. */
    lemma BreakdownUnbudgeted(u: int, breakdown: map<string, BreakdownEntry>, c: string)
      requires budgets.Valid()
      requires BreakdownMatches(breakdown, IndexByCategory(budgets.GetByUserId(u)), transactions.GetCategoryTotals(u, Expense))
      requires c in breakdown && forall b :: b in budgets.rows && b.userId == u ==> b.category != c
      ensures breakdown[c] == UnbudgetedEntry(Total(Where(transactions.rows, OfUserTypeAndCategory(u, Expense, c))))
    {
    }

    /** The breakdown's categories are those the user budgeted or spent in. */
    lemma BreakdownKeys(u: int, breakdown: map<string, BreakdownEntry>, c: string)
      requires budgets.Valid()
      requires BreakdownMatches(breakdown, IndexByCategory(budgets.GetByUserId(u)), transactions.GetCategoryTotals(u, Expense))
      ensures c in breakdown <==>
        (exists b :: b in budgets.rows && b.userId == u && b.category == c)
        || (exists t :: t in transactions.rows && t.userId == u && t.IsExpense() && t.category == c)
    {
      var index := IndexByCategory(budgets.GetByUserId(u));
      if c in index {
        assert index[c] in budgets.GetByUserId(u);
      }
      if exists b :: b in budgets.rows && b.userId == u && b.category == c {
        var b :| b in budgets.rows && b.userId == u && b.category == c;
        assert b in budgets.GetByUserId(u);
      }
    }
  }
}
