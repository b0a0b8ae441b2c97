# Finance Tracker: budget analytics and spending aggregation

This project models the service and repository layer of the Finance Tracker
web application in Dafny, and proves properties of that model.

The application keeps a ledger of transactions and a table of budgets per
user. It offers two services:

- The **budget service** validates and creates budgets, and updates and
  deletes them only for their owner. It computes what was spent against
  each budget inside the budget's date window, derives the analytics record
  (remaining, percentage used, overspent flag), and reports warnings, the
  overspent list and a per-category breakdown against all-time expense
  totals.
- The **transaction service** validates and creates transactions, deletes
  and updates them only for their owner, and builds the financial summary
  and the daily and monthly spending series behind the dashboard charts.

Both services sit on two repositories over SQLite. Here each repository is
a class holding its rows as a sequence in insertion order, plus the
AUTOINCREMENT counter. The budget table also holds a creation counter that
stands in for `created_at`. The SQL queries become functions over those
rows:

- `WHERE` is `Seqs.Where`.
- `ORDER BY date DESC` is `Sums.SortByDateDesc`, a stable insertion sort.
- `ORDER BY created_at DESC` is the reverse of insertion order.
- `SUM` is `Sums.Total`.
- `GROUP BY` and the services' dictionary accumulators are `Sums.GroupTotals`.

The two table invariants are class invariants:

- ids are distinct;
- on the budget table, `(user_id, category)` is unique.

Modules, one per file:

| file | module | models |
|---|---|---|
| `wrappers.dfy` | `Wrappers` | `Option`, `Result`, `Outcome` |
| `text.dfy` | `Text` | string comparison (as SQLite and Python compare text), `sorted` over a key set, `str.split` |
| `models.dfy` | `Models` | `app/models/__init__.py` |
| `seqs.dfy` | `Seqs` | filtering, first match, reversal, pairwise properties |
| `sums.dfy` | `Sums` | sums, the date sort, group-by-sum and the listing of a filter |
| `transaction_repository.dfy` | `TransactionRepositories` | `app/repositories/transaction_repository.py` |
| `budget_repository.dfy` | `BudgetRepositories` | `app/repositories/budget_repository.py` |
| `budget_service.dfy` | `BudgetServices` | `app/services/budget_service.py` |
| `transaction_service.dfy` | `TransactionServices` | `app/services/transaction_service.py` |

Amounts are `real`. Dates are the strings the user entered, compared
lexicographically as SQLite compares `TEXT`. Some things become parameters
of the operations that use them:

- Date parsing (`datetime.strptime(..., '%Y-%m-%d')`) is the parameter `validDate`.
- Month-label formatting (`strptime('%Y-%m')` followed by `strftime('%b %Y')`) is the parameter `monthLabel`. It returns `None` where parsing raises.

The service's result tuples `(success, message, object)` become
`Result`/`Outcome` values. Each message is an error constructor, with the
message text beside it.

Two behaviours of the code are worth stating outright:

- **Fully used budget.** A budget spent to exactly its allocation (`spent == allocated > 0`) is not overspent, because `is_overspent` is a strict `>`. Its percentage is 100, and the warning rule at app/services/budget_service.py:96 (`percentage_used > 80`) is the only other test, so the budget gets an `approaching_limit` warning with percentage 100. `BudgetServices.FullySpentIsApproaching` proves this.
- **Blank category.** The services reject only an empty category (`not category`). The web routes strip the submitted category first (app/views/budget_routes.py:52, app/views/transaction_routes.py:49), so a blank category is refused end to end. The model covers the services, which receive the already-stripped text.

## Model

| member | source | states |
|---|---|---|
| Models.ParseTransactionType | app/models/__init__.py:10-13 | a type string is accepted exactly when it is `income` or `expense`, and the accepted value writes back to the same string |
| Models.TransactionTypeRoundTrip | app/models/__init__.py:10-13 | writing a type to its string and parsing it back gives the same type |
| Models.ParseBudgetPeriod | app/models/__init__.py:16-21 | a period string is accepted exactly when it is one of `weekly`, `monthly`, `yearly`, `custom`, and writes back to the same string |
| Models.BudgetPeriodRoundTrip | app/models/__init__.py:16-21 | writing a period to its string and parsing it back gives the same period |
| Models.IncomeOrExpense | app/models/__init__.py:72-80 | every transaction is an income exactly when it is not an expense |
| Models.MakeBudgetAnalytics | app/models/__init__.py:102-115 | remaining and spent add up to the allocation; overspent exactly when spent exceeds the allocation (strictly), or equivalently when remaining is negative; with a positive allocation, percentage × allocation = spent × 100 and overspent exactly when the percentage exceeds 100; otherwise the percentage stays 0 |
| Models.PercentageFacts | app/models/__init__.py:113-114 | the percentage `spent / allocated * 100` over a positive allocation exceeds 100 exactly when spent exceeds the allocation, and exceeds 80 exactly when spent × 100 > 80 × allocation |
| Models.MakeFinancialSummary | app/models/__init__.py:118-129 | the net balance is recomputed as income minus expense, whatever was passed, and the other fields are kept |
| Text.LexLeTotalOrder | app/repositories/transaction_repository.py:82-97 | text comparison of dates is a total order: reflexive, antisymmetric, transitive, total |
| Text.SortedKeys | app/services/transaction_service.py:142 | `sorted(totals.items())` yields the keys, each exactly once, in strictly ascending order |
| Text.AscendingUnique | app/services/transaction_service.py:142 | strictly ascending sequences with the same elements are equal, so the sorted key order is determined |
| Text.Split | app/services/transaction_service.py:156 | `str.split` yields at least one piece, and no piece contains the separator |
| Text.JoinSplit | app/services/transaction_service.py:156 | joining the pieces with the separator gives the string back |
| Text.SplitHasTwoParts | app/services/transaction_service.py:157 | there are at least two pieces exactly when the separator occurs |
| Seqs.Where | app/repositories/transaction_repository.py:60-69 | a SQL `WHERE`: the selected rows are exactly the rows of the table that meet the condition, and there are no more of them than rows |
| Sums.Total | app/repositories/transaction_repository.py:126-131 | a `SUM(amount)`; over rows with non-negative amounts the sum is non-negative |
| Sums.SortByDateDesc | app/repositories/transaction_repository.py:49-58 | `ORDER BY date DESC` returns as many rows as it was given |
| Sums.GroupTotals | app/repositories/transaction_repository.py:137-142 | a `GROUP BY ... SUM` has a key only where some row has that key |
| Sums.SortByDateDescSpec | app/repositories/transaction_repository.py:49-58 | `ORDER BY date DESC` yields latest date first and is a permutation of its input |
| Sums.Listing | app/repositories/transaction_repository.py:60-80 | a listing holds exactly the rows the filter selects, latest date first, each as often as in the table |
| Sums.SortKeepsTotal | app/services/budget_service.py:207-211 | summing the rows a condition selects gives the same total over the sorted listing as over the table |
| Sums.TotalWhereNone | app/repositories/transaction_repository.py:130-131 | a `SUM` over no matching rows is 0 |
| Sums.GroupTotalsSpec | app/repositories/transaction_repository.py:133-142 | a group-by-sum holds exactly the keys that occur (no zero entries), each mapped to the total of the rows with that key |
| Sums.GroupTotalsOfSorted | app/services/transaction_service.py:118-122 | grouping the date-sorted listing gives the same totals as grouping the unsorted rows |
| Sums.GroupTotalsAddUp | app/services/transaction_service.py:119-122 | the totals of a group-by-sum, read under distinct keys covering the groups, add up to the total of the keyed rows |
| Sums.GroupedListing | app/services/transaction_service.py:136-139 | grouping a listing: a key occurs exactly when a selected row has it, and its entry is the total of the selected rows with that key |
| Sums.GroupedListingAddsUp | app/services/transaction_service.py:136-146 | the entries of a grouped listing, read back under its keys, add up to the total of the selected keyed rows |
| Sums.LookupSpec | app/services/transaction_service.py:146 | entry `i` of the amounts is the total stored under label `i` |
| TransactionRepositories.UpperBound | app/repositories/transaction_repository.py:86-93 | `if end_date:`: an absent and an empty end date both mean no upper bound; any other end date is the bound |
| TransactionRepositories.InDateRange | app/repositories/transaction_repository.py:86-95 | the `WHERE user_id = ? AND date >= ? [AND date <= ?]` filter: a row is selected exactly when it is the user's and dated from the start through the end, where an absent or blank end sets no upper bound |
| TransactionRepositories.TransactionToRow | app/repositories/transaction_repository.py:18-25 | the row `create` inserts carries each field of the transaction, with the type stored as its string value |
| TransactionRepositories.Overwrite | app/repositories/transaction_repository.py:99-112 | an update keeps the row's id and owner and takes amount, category, date, description, payment method and type from the argument |
| TransactionRepositories.LedgerWhere | app/repositories/transaction_repository.py:114-120 | removing rows keeps ids distinct and below the counter |
| TransactionRepositories.LedgerRewrite | app/repositories/transaction_repository.py:99-112 | rewriting rows without touching ids keeps the ledger well formed |
| TransactionRepositories.StoredType | app/repositories/transaction_repository.py:146-150 | a NULL, missing or empty type column reads as the default type (`expense`); any other value is kept |
| TransactionRepositories.RowToTransaction | app/repositories/transaction_repository.py:144-161 | a row maps to a transaction with the same columns exactly when its stored type is a valid enum value (otherwise building the enum raises); the transaction's type is that stored value, with `expense` for a missing one |
| TransactionRepositories.RowRoundTrip | app/repositories/transaction_repository.py:144-161 | the row `create` writes reads back as the same transaction |
| TransactionRepositories.LegacyRowIsExpense | app/repositories/transaction_repository.py:146-150 | rows without a type read back as expenses |
| TransactionRepositories.CategoryGroup | app/repositories/transaction_repository.py:137-142 | one category of `GROUP BY category`: a key exactly when the user has a row of that type in it, with that category's sum |
| TransactionRepositories.TransactionRepository.GetById | app/repositories/transaction_repository.py:30-39 | the row with that id if there is one; `None` exactly when no row has it |
| TransactionRepositories.TransactionRepository.GetByUserId | app/repositories/transaction_repository.py:49-58 | exactly the user's rows, latest date first, each as often as it is stored |
| TransactionRepositories.TransactionRepository.GetByUserAndType | app/repositories/transaction_repository.py:60-69 | exactly the user's rows of that type, latest date first, each as often as it is stored |
| TransactionRepositories.TransactionRepository.GetByCategory | app/repositories/transaction_repository.py:71-80 | exactly the user's rows in that category, latest date first, each as often as it is stored |
| TransactionRepositories.TransactionRepository.GetByDateRange | app/repositories/transaction_repository.py:82-97 | exactly the user's rows dated on or after the start and, when the end is present and non-empty, on or before it; latest first; each row as often as in the table |
| TransactionRepositories.TransactionRepository.GetTotalByType | app/repositories/transaction_repository.py:122-131 | the sum over the user's rows of that type; 0 when there are none |
| TransactionRepositories.TransactionRepository.GetCategoryTotals | app/repositories/transaction_repository.py:133-142 | a category is a key exactly when the user has a row of that type in it (no zero entries); its value is that category's sum |
| TransactionRepositories.TransactionRepository.TotalByTypeIsListingSum | app/repositories/transaction_repository.py:122-131 | the total by type equals the sum of `get_by_user_and_type`'s listing |
| TransactionRepositories.TransactionRepository.Create | app/repositories/transaction_repository.py:14-28 | appends the argument with a fresh id, unused by any earlier row; `get_by_id` of that id then returns it |
| TransactionRepositories.TransactionRepository.Update | app/repositories/transaction_repository.py:99-112 | overwrites the row with the argument's id (keeping id and owner) and no other row |
| TransactionRepositories.TransactionRepository.Delete | app/repositories/transaction_repository.py:114-120 | true exactly when the id existed; afterwards it is absent and the other rows remain in order |
| BudgetRepositories.WellFormedAppend | app/repositories/budget_repository.py:13-26 | inserting a budget with a free (user, category), the next id and the next stamp keeps ids and keys unique and stamps increasing |
| BudgetRepositories.WellFormedWhere | app/repositories/budget_repository.py:96-113 | deleting rows keeps the table well formed |
| BudgetRepositories.KeyUnique | app/repositories/base.py:120 | `UNIQUE(user_id, category)`: two rows with the same user and category are the same row |
| BudgetRepositories.Rewrite | app/repositories/budget_repository.py:72-83 | `update` takes allocation, period and both dates from the argument and keeps id, user, category and creation stamp |
| BudgetRepositories.Reallocate | app/repositories/budget_repository.py:85-94 | `update_allocation` sets the allocation to the new amount and keeps the id, owner, category, period, dates and creation stamp |
| BudgetRepositories.WellFormedRewrite | app/repositories/budget_repository.py:72-94 | rewriting rows without touching id, user, category or stamp keeps the table well formed |
| BudgetRepositories.ReverseNewestFirst | app/repositories/budget_repository.py:47-56 | rows in insertion order, listed in reverse, are in strictly decreasing creation order (`ORDER BY created_at DESC`) |
| BudgetRepositories.BudgetRepository.GetById | app/repositories/budget_repository.py:28-37 | the budget with that id if there is one; `None` exactly when none has it |
| BudgetRepositories.BudgetRepository.GetByCategory | app/repositories/budget_repository.py:58-70 | the user's budget for that category if there is one; `None` exactly when there is none |
| BudgetRepositories.BudgetRepository.GetByUserId | app/repositories/budget_repository.py:47-56 | exactly the user's budgets, newest first |
| BudgetRepositories.BudgetRepository.Create | app/repositories/budget_repository.py:13-26 | with a free (user, category): appends the budget with the next id and stamp, findable by that id; a taken key violates the UNIQUE constraint and leaves the table unchanged |
| BudgetRepositories.BudgetRepository.Update | app/repositories/budget_repository.py:72-83 | rewrites the row with the argument's id and no other; returns the argument |
| BudgetRepositories.BudgetRepository.UpdateAllocation | app/repositories/budget_repository.py:85-94 | sets the allocation of the row with that id and nothing else; true exactly when such a row exists |
| BudgetRepositories.BudgetRepository.Delete | app/repositories/budget_repository.py:96-102 | true exactly when the id existed; afterwards it is absent and the other rows remain in order |
| BudgetRepositories.BudgetRepository.DeleteByUserAndCategory | app/repositories/budget_repository.py:104-113 | removes the row with both keys and no other; true exactly when it existed |
| BudgetServices.CheckNewBudget | app/services/budget_service.py:27-60 | the checks in order: empty category or non-positive allocation; then an existing budget for (user, category); then an unparsable start date, or end date when one is given; then an unknown period (the generic failure); each failure exactly under its condition, and success exactly when all pass |
| BudgetServices.DatesValid | app/services/budget_service.py:38-43 | the start date must parse, and the end date too when it is given and not blank |
| BudgetServices.SpentAmount | app/services/budget_service.py:199-213 | the spent amount is 0 when no row counts toward the budget, and non-negative when no amount is negative |
| BudgetServices.AnalyticsOf | app/services/budget_service.py:66-78 | one analytics record per budget |
| BudgetServices.WarningFor | app/services/budget_service.py:88-103 | an `overspent` warning exactly when the record is overspent; an `approaching_limit` warning exactly when it is not and more than 80% is used; the warning carries the budget's category, allocation and spent amount, and an `approaching_limit` warning the percentage used |
| BudgetServices.OverspentFor | app/services/budget_service.py:157-168 | at most one entry per record, each with overage equal to spent minus allocated |
| BudgetServices.CountsTowardMeaning | app/services/budget_service.py:199-213 | a row counts toward a budget exactly when it is the user's expense in the budget's category dated on or after the start and, for a non-empty end date, on or before it |
| BudgetServices.SpentOverListing | app/services/budget_service.py:199-213 | summing the budget's expenses over the sorted date-range listing gives the spent amount over the table |
| BudgetServices.SpentAppend | app/services/budget_service.py:199-213 | one more ledger row raises the spent amount by its amount if it counts toward the budget, and leaves it otherwise |
| BudgetServices.OpenEndedWindows | app/repositories/transaction_repository.py:86-93 | an absent and an empty end date give the same spent amount |
| BudgetServices.AnalyticsOfSpec | app/services/budget_service.py:66-78 | entry `i` of the analytics is budget `i` of the listing with what was spent against it; one entry per budget |
| BudgetServices.WarningThresholds | app/services/budget_service.py:80-105 | a budget gets an `overspent` warning exactly when spent exceeds the allocation, with overage spent − allocation; an `approaching_limit` warning exactly when a positive allocation is more than 80% but at most 100% used; never both; the warning carries the budget's category, allocation and spent amount, and an `approaching_limit` warning a percentage with percentage × allocation = spent × 100 |
| BudgetServices.FullySpentIsApproaching | app/services/budget_service.py:96 | spending exactly a positive allocation gives an `approaching_limit` warning at 100% |
| BudgetServices.WarningsAppend | app/services/budget_service.py:85-103 | the warnings of two runs of analytics are the warnings of each, in order |
| BudgetServices.WarningsFromAnalytics | app/services/budget_service.py:85-103 | every warning is the warning of one of the analytics, and every record that has a warning contributes it |
| BudgetServices.OverspentForSpec | app/services/budget_service.py:154-168 | the overspent list has one entry per overspent budget and holds exactly the entries of the overspent analytics |
| BudgetServices.OverspentMatchesWarnings | app/services/budget_service.py:154-168 | the overspent list equals the `overspent` warnings, one to one and in order |
| BudgetServices.BudgetedEntry | app/services/budget_service.py:179-185 | a budgeted row: remaining + spent = allocation; with a positive allocation, percentage × allocation = spent × 100; otherwise percentage 0 |
| BudgetServices.UnbudgetedEntry | app/services/budget_service.py:188-195 | an unbudgeted row: nothing budgeted, remaining −spent, percentage 100 |
| BudgetServices.IndexByCategory | app/services/budget_service.py:172 | the dictionary has one key per budgeted category, each mapped to a budget of that category |
| BudgetServices.BuildBreakdown | app/services/budget_service.py:175-197 | the two loops yield exactly the budgeted and the spent categories; a budgeted one compares its expense total with its allocation; an unbudgeted one gets the sentinel row |
| BudgetServices.SumExpenses | app/services/budget_service.py:207-211 | the loop sums exactly the rows of the listing that are expenses in the budget's category |
| BudgetServices.WarningsFor | app/services/budget_service.py:80-105 | at most one warning per analytics record |
| BudgetServices.CollectWarnings | app/services/budget_service.py:83-105 | the loop yields the warnings of the analytics, in their order |
| BudgetServices.CollectOverspent | app/services/budget_service.py:157-168 | the loop yields the overspent list of the analytics, in their order |
| BudgetServices.BudgetService.CreateBudget | app/services/budget_service.py:19-60 | a failed check returns its error and changes nothing; otherwise the table gains exactly the new budget with the next id, and the id and creation counters each advance by one |
| BudgetServices.BudgetService.UpdateBudgetAllocation | app/services/budget_service.py:107-130 | an absent budget or another user's is refused with one error and nothing changes; then a non-positive amount is refused with nothing changed; otherwise only that budget's allocation changes |
| BudgetServices.BudgetService.DeleteBudget | app/services/budget_service.py:132-152 | the same ownership check; on success exactly that budget is gone, the others remain in order, and the id and creation counters are unchanged |
| BudgetServices.BudgetService.CalculateSpentAmount | app/services/budget_service.py:199-213 | the loop over the date-range listing returns the spent amount against the budget |
| BudgetServices.BudgetService.GetBudgetAnalytics | app/services/budget_service.py:66-78 | one analytics record per budget of the user, in the listing's order (newest first) |
| BudgetServices.BudgetService.GetBudgetWarnings | app/services/budget_service.py:80-105 | the warnings of the analytics, at most one per budget, in budget order |
| BudgetServices.BudgetService.GetOverspentCategories | app/services/budget_service.py:154-168 | the entries of the overspent analytics, in their order |
| BudgetServices.BudgetService.GetSpendingBreakdownByCategory | app/services/budget_service.py:170-197 | the breakdown built from the user's budgets indexed by category and the all-time expense totals by category |
| BudgetServices.BudgetService.BreakdownBudgeted | app/services/budget_service.py:178-185 | a budget's row compares its category's all-time expense total with its allocation |
| BudgetServices.BudgetService.BreakdownUnbudgeted | app/services/budget_service.py:187-195 | a category without a budget gets the sentinel row for its all-time expense total |
| BudgetServices.BudgetService.BreakdownKeys | app/services/budget_service.py:170-197 | the breakdown's categories are exactly those the user budgeted or has expenses in |
| TransactionServices.CheckNewTransaction | app/services/transaction_service.py:25-55 | the checks in order: empty category or missing amount; then a non-positive amount; then an unparsable date; then an unknown type (the generic failure); each failure exactly under its condition, and success exactly when all pass |
| TransactionServices.YearMonth | app/services/transaction_service.py:156-158 | a date contributes to the monthly series exactly when it contains a `-` |
| TransactionServices.YearMonthOfIsoDate | app/services/transaction_service.py:156-158 | for a `YYYY-MM-DD` date the month key is its first seven characters |
| TransactionServices.AccumulateTotals | app/services/transaction_service.py:154-159 | the accumulator loop computes the group-by-sum of the listing |
| TransactionServices.LabelFor | app/services/transaction_service.py:167-171 | a month key that formats gets its label, and one that does not stays as the key |
| TransactionServices.FormatLabels | app/services/transaction_service.py:165-171 | one label per key, in order: the formatted month where the key parses, the key itself otherwise |
| TransactionServices.TransactionService.CreateTransaction | app/services/transaction_service.py:17-55 | a failed check returns its error and changes nothing; otherwise the ledger gains exactly the new transaction with the next id |
| TransactionServices.TransactionService.DeleteTransaction | app/services/transaction_service.py:65-87 | an absent id gives "not found" and another user's row gives "unauthorized", both changing nothing; the owner's row is removed and the others remain in order |
| TransactionServices.TransactionService.UpdateTransaction | app/services/transaction_service.py:89-105 | an absent row or another user's is refused with nothing changed; otherwise the row is overwritten, keeping its id and owner |
| TransactionServices.TransactionService.GetFinancialSummary | app/services/transaction_service.py:107-130 | totals by type, category totals by type, the expense listing grouped by payment method, and net balance = income − expense |
| TransactionServices.TransactionService.PaymentMethodTotals | app/services/transaction_service.py:118-122 | a payment method is a key exactly when the user paid an expense with it, and its entry is the total of those expenses |
| TransactionServices.TransactionService.PaymentMethodsAddUp | app/services/transaction_service.py:118-122 | the payment-method totals add up to the total expense |
| TransactionServices.TransactionService.GetDailySpendingData | app/services/transaction_service.py:132-147 | labels strictly ascending, exactly the dates with expenses; one amount per label, that date's expense total; the amounts add up to the total expense |
| TransactionServices.TransactionService.DailyFacts | app/services/transaction_service.py:136-146 | the daily totals read under their sorted dates mean what the daily series promises |
| TransactionServices.TransactionService.GetMonthlySpendingData | app/services/transaction_service.py:149-176 | month keys strictly ascending, exactly the keys of the user's expenses; one label and one amount per key; the label is the formatted month or the raw key; the amount is that month's expense total; the amounts add up to the expenses whose date has a key |
| TransactionServices.TransactionService.MonthlyFacts | app/services/transaction_service.py:153-175 | the monthly totals read under their sorted keys mean what the monthly series promises |

## Left out

- I/O: the SQLite connection, schema creation and migrations (`app/repositories/base.py`) are not modelled. Only two parts of it are carried over: the uniqueness of `(user_id, category)` and the `expense` default of the type column.
- Floating point: amounts are exact reals. The model makes no claim about rounding in sums or percentages.
- Date parsing and month formatting (`datetime.strptime` and `strftime`) are parameters of the operations that use them, not definitions.
- Ties in `ORDER BY date DESC`: SQLite leaves the order of rows with equal dates unspecified. The model keeps them in storage order. The membership, date-order and total properties do not depend on that choice.
- `created_at` is a counter that increases with every insert. In the database it is `CURRENT_TIMESTAMP`, with one-second resolution, so budgets created in the same second tie there. Transactions' `created_at` is never read by the core and is not modelled.
- Dictionary iteration order: the breakdown, the financial summary's maps and the group-by results are Dafny maps. Their key order is not modelled. The spending series are ordered, because the source sorts them.
- The catch-all `except Exception` branches are the single error `OperationFailed`. The model reaches it only where the source can raise: an unknown period or type string, or a store reporting that no row changed.
- BudgetRepositories.BudgetRepository.Create: a duplicate (user, category) makes the real insert raise. The model returns `None` without changing the table, and the service turns that into `OperationFailed`. The service's own earlier check means the model never takes that path from the service.
- The `get_all` queries of both repositories and the one-line delegations `get_user_budgets`, `get_user_transactions` and `get_transaction_by_id` are not modelled, because they are not part of the core. The delegations are the repository queries the model does have.
- `_row_to_budget`: the model stores budgets as records and does not map them from rows. `_row_to_budget` does not read the stored `created_at`. The `Budget` it builds gets `created_at` from `datetime.now()` in `__post_init__` (app/models/__init__.py:96-97). The listing order comes from the SQL `ORDER BY created_at DESC` on the stored column, which the model's creation counter stands for. `BudgetPeriod(row['period'])` raises on a stored period that is not a known value. The model's stored budgets always hold a decoded period, so that failure is not modelled.
- Legacy rows with a NULL type exist only in `TransactionRepositories.RowToTransaction`. The ledger holds decoded transactions, so the SQL detail that `transaction_type = ?` never matches a NULL row is not modelled.
- TransactionServices.TransactionService.UpdateTransaction: states what the source does. The fields of the update are not validated (no amount, date or category check), so the model does not validate them either.
- The message strings are not modelled as values. Each error constructor carries its message as a comment.
- TransactionServices.TransactionService.GetMonthlySpendingData: `months` (the sorted keys) is a ghost result. The source returns only the labels and the amounts.
