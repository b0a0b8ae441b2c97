/**
 * The ledger as an in-memory store: the rows of the `transactions` table in
 * insertion order and the AUTOINCREMENT counter. Listings are filters
 * followed by `ORDER BY date DESC`; totals are `SUM` and `GROUP BY` over a
 * filter.
 */
module TransactionRepositories {
  import opened Wrappers
  import opened Models
  import opened Seqs
  import opened Sums
  import Text

  /** Two rows never share an id (the primary key). */
  function DifferentIds(a: Transaction, b: Transaction): bool { a.id != b.id }

  function HasId(id: int): Transaction -> bool { (t: Transaction) => t.id == id }
  function NotId(id: int): Transaction -> bool { (t: Transaction) => t.id != id }
  function OfUser(u: int): Transaction -> bool { (t: Transaction) => t.userId == u }

  function OfUserAndType(u: int, ty: TransactionType): Transaction -> bool
  {
    (t: Transaction) => t.userId == u && t.transactionType == ty
  }

  function OfUserAndCategory(u: int, c: string): Transaction -> bool
  {
    (t: Transaction) => t.userId == u && t.category == c
  }

  function OfUserTypeAndCategory(u: int, ty: TransactionType, c: string): Transaction -> bool
  {
    (t: Transaction) => t.userId == u && t.transactionType == ty && t.category == c
  }

  /**
   * The upper end of a date range: `if end_date:` treats both an absent and
   * an empty `end_date` as no bound.
   */
  function UpperBound(end: Option<string>): (r: Option<string>)
    ensures r.None? <==> end.None? || end.value == ""
    ensures r.Some? ==> r == end
  {
    if end.Some? && end.value != "" then end else None
  }

  /** `user_id = ? AND date >= ? [AND date <= ?]`, compared as text. */
  function InDateRange(u: int, start: string, end: Option<string>): (r: Transaction -> bool)
    ensures forall t :: r(t) <==>
      && t.userId == u && Text.LexLe(start, t.date)
      && (end.Some? && end.value != "" ==> Text.LexLe(t.date, end.value))
  {
    (t: Transaction) =>
      && t.userId == u
      && Text.LexLe(start, t.date)
      && (UpperBound(end).Some? ==> Text.LexLe(t.date, UpperBound(end).value))
  }

  /** The columns `update` rewrites; id and owner stay as stored. */
  function Overwrite(row: Transaction, t: Transaction): (r: Transaction)
    ensures r.id == row.id && r.userId == row.userId
    ensures r.amount == t.amount && r.category == t.category && r.date == t.date
    ensures r.description == t.description && r.paymentMethod == t.paymentMethod
    ensures r.transactionType == t.transactionType
  {
    t.(id := row.id, userId := row.userId)
  }

  /** What the ledger guarantees about its rows at all times. */
  predicate LedgerWellFormed(rows: seq<Transaction>, nextId: int)
  {
    && 0 < nextId
    && Pairwise(rows, DifferentIds)
    && (forall t :: t in rows ==> 0 < t.id < nextId)
  }

  /** Removing rows keeps the ledger well formed. */
  lemma LedgerWhere(rows: seq<Transaction>, nextId: int, p: Transaction -> bool)
    requires LedgerWellFormed(rows, nextId)
    ensures LedgerWellFormed(Where(rows, p), nextId)
  {
    WherePairwise(rows, p, DifferentIds);
  }

  /** Rewriting rows in place without touching any id keeps the ledger well formed. */
  lemma LedgerRewrite(rows: seq<Transaction>, rows': seq<Transaction>, nextId: int)
    requires LedgerWellFormed(rows, nextId)
    requires |rows'| == |rows|
    requires forall i :: 0 <= i < |rows| ==> rows'[i].id == rows[i].id
    ensures LedgerWellFormed(rows', nextId)
  {
    forall i, j | 0 <= i < j < |rows'| ensures DifferentIds(rows'[i], rows'[j]) {
      assert DifferentIds(rows[i], rows[j]);
    }
    forall t | t in rows' ensures 0 < t.id < nextId {
      var i :| 0 <= i < |rows'| && rows'[i] == t;
      assert rows[i] in rows;
    }
  }

  /** One category of `GROUP BY category` over the user's rows of one type. */
  lemma CategoryGroup(rows: seq<Transaction>, u: int, ty: TransactionType, c: string)
    ensures var totals := GroupTotals(Where(rows, OfUserAndType(u, ty)), CategoryKey);
      && (c in totals <==> exists t :: t in rows && t.userId == u && t.transactionType == ty && t.category == c)
      && Get(totals, c) == Total(Where(rows, OfUserTypeAndCategory(u, ty, c)))
  {
    var s := Where(rows, OfUserAndType(u, ty));
    GroupTotalsSpec(s, CategoryKey, c);
    forall x ensures HasKey(CategoryKey, c)(x) == (x.category == c) {
      assert CategoryKey(x) == Some(x.category);
    }
    WhereWhere(rows, OfUserAndType(u, ty), HasKey(CategoryKey, c), OfUserTypeAndCategory(u, ty, c));
  }

  /** A stored row as the database returns it: the type column may be NULL in old rows. */
  datatype TransactionRow = TransactionRow(
    id: int,
    userId: int,
    amount: real,
    category: string,
    date: string,
    description: Option<string>,
    paymentMethod: string,
    transactionType: Option<string>)

  /** The type value read from a row: NULL, a missing column or an empty value mean `expense`. */
  function StoredType(v: Option<string>): (r: string)
    ensures v.None? || v.value == "" ==> r == TransactionTypeValue(DefaultTransactionType)
    ensures v.Some? && v.value != "" ==> r == v.value
  {
    if v.Some? && v.value != "" then v.value else "expense"
  }

  /**
   * `_row_to_transaction`: the row as a transaction, or `None` when the
   * stored type is no enum value (building the enum raises).
   */
  function RowToTransaction(row: TransactionRow): (r: Option<Transaction>)
    ensures r.Some? <==> ParseTransactionType(StoredType(row.transactionType)).Some?
    ensures r.Some? ==>
      && r.value.id == row.id && r.value.userId == row.userId
      && r.value.amount == row.amount && r.value.category == row.category
      && r.value.date == row.date && r.value.description == row.description
      && r.value.paymentMethod == row.paymentMethod
      && r.value.transactionType == ParseTransactionType(StoredType(row.transactionType)).value
  {
    match ParseTransactionType(StoredType(row.transactionType))
    case None => None
    case Some(ty) =>
      Some(Transaction(row.id, row.userId, row.amount, row.category, row.date,
                       row.description, row.paymentMethod, ty))
  }

  /** The row `create` writes for a transaction. */
  function TransactionToRow(t: Transaction): (r: TransactionRow)
    ensures r.id == t.id && r.userId == t.userId && r.amount == t.amount && r.category == t.category
    ensures r.date == t.date && r.description == t.description && r.paymentMethod == t.paymentMethod
    ensures r.transactionType == Some(TransactionTypeValue(t.transactionType))
  {
    TransactionRow(t.id, t.userId, t.amount, t.category, t.date, t.description,
                   t.paymentMethod, Some(TransactionTypeValue(t.transactionType)))
  }

  /** A written row reads back as the same transaction. */
  lemma RowRoundTrip(t: Transaction)
    ensures RowToTransaction(TransactionToRow(t)) == Some(t)
  {
    TransactionTypeRoundTrip(t.transactionType);
  }

  /** Rows from before the type column existed read back as expenses. */
  lemma LegacyRowIsExpense(row: TransactionRow)
    requires row.transactionType.None? || row.transactionType == Some("")
    ensures RowToTransaction(row).Some? && RowToTransaction(row).value.transactionType == DefaultTransactionType
  {
  }

  class TransactionRepository {
    /** The rows in insertion order. */
    var rows: seq<Transaction>
    /** The next id AUTOINCREMENT hands out. */
    var nextId: int

    predicate Valid()
      reads this
    {
      LedgerWellFormed(rows, nextId)
    }

    constructor()
      ensures Valid() && rows == []
    {
      rows := [];
      nextId := 1;
    }

    /** `get_by_id`: the row with that id, if any. */
    function GetById(id: int): (r: Option<Transaction>)
      reads this
      ensures r.Some? ==> r.value in rows && r.value.id == id
      ensures r.None? <==> forall t :: t in rows ==> t.id != id
    {
      First(rows, HasId(id))
    }

    /** `get_by_user_id`: exactly the user's rows, latest date first. */
    function GetByUserId(u: int): (r: seq<Transaction>)
      reads this
      ensures forall t :: t in r <==> t in rows && t.userId == u
      ensures DateDescending(r)
      ensures multiset(r) == multiset(Where(rows, OfUser(u)))
    {
      Listing(rows, OfUser(u))
    }

    /** `get_by_user_and_type`: exactly the user's rows of that type, latest date first. */
    function GetByUserAndType(u: int, ty: TransactionType): (r: seq<Transaction>)
      reads this
      ensures forall t :: t in r <==> t in rows && t.userId == u && t.transactionType == ty
      ensures DateDescending(r)
      ensures multiset(r) == multiset(Where(rows, OfUserAndType(u, ty)))
    {
      Listing(rows, OfUserAndType(u, ty))
    }

    /** `get_by_category`: exactly the user's rows in that category, latest date first. */
    function GetByCategory(u: int, c: string): (r: seq<Transaction>)
      reads this
      ensures forall t :: t in r <==> t in rows && t.userId == u && t.category == c
      ensures DateDescending(r)
      ensures multiset(r) == multiset(Where(rows, OfUserAndCategory(u, c)))
    {
      Listing(rows, OfUserAndCategory(u, c))
    }

    /**
     * `get_by_date_range`: exactly the user's rows dated on or after `start`
     * and, when `end` is present and non-empty, on or before it; latest first.
     */
    function GetByDateRange(u: int, start: string, end: Option<string>): (r: seq<Transaction>)
      reads this
      ensures forall t :: t in r <==>
        && t in rows && t.userId == u && Text.LexLe(start, t.date)
        && (end.Some? && end.value != "" ==> Text.LexLe(t.date, end.value))
      ensures DateDescending(r)
      ensures multiset(r) == multiset(Where(rows, InDateRange(u, start, end)))
    {
      Listing(rows, InDateRange(u, start, end))
    }

    /** `get_total_by_type`: the sum over the user's rows of that type; 0 when there are none. */
    function GetTotalByType(u: int, ty: TransactionType): (r: real)
      reads this
      ensures (forall t :: t in rows ==> !(t.userId == u && t.transactionType == ty)) ==> r == 0.0
    {
      var p := OfUserAndType(u, ty);
      assert (forall t :: t in rows ==> !p(t)) ==> Total(Where(rows, p)) == 0.0 by {
        if forall t :: t in rows ==> !p(t) {
          TotalWhereNone(rows, p);
        }
      }
      Total(Where(rows, p))
    }

    /**
     * `get_category_totals`: one entry per category that has a row of that
     * type for the user (no zero entries), mapped to that category's sum.
     */
    function GetCategoryTotals(u: int, ty: TransactionType): (r: map<string, real>)
      reads this
      ensures forall c :: c in r <==>
        exists t :: t in rows && t.userId == u && t.transactionType == ty && t.category == c
      ensures forall c :: c in r ==> r[c] == Total(Where(rows, OfUserTypeAndCategory(u, ty, c)))
    {
      var s := Where(rows, OfUserAndType(u, ty));
      forall c
        ensures c in GroupTotals(s, CategoryKey) <==>
          exists t :: t in rows && t.userId == u && t.transactionType == ty && t.category == c
        ensures Get(GroupTotals(s, CategoryKey), c) == Total(Where(rows, OfUserTypeAndCategory(u, ty, c)))
      {
        CategoryGroup(rows, u, ty, c);
      }
      GroupTotals(s, CategoryKey)
    }

    /** The total by type is the sum of the listing by type. */
    lemma TotalByTypeIsListingSum(u: int, ty: TransactionType)
      ensures GetTotalByType(u, ty) == Total(GetByUserAndType(u, ty))
    {
      SortKeepsSum(Where(rows, OfUserAndType(u, ty)));
    }

    /** `create`: insert with the next id; the stored row is the argument with that id. */
    method Create(t: Transaction) returns (created: Transaction)
      requires Valid()
      modifies this
      ensures Valid()
      ensures created == t.(id := old(nextId))
      ensures forall r :: r in old(rows) ==> r.id != created.id
      ensures rows == old(rows) + [created] && nextId == old(nextId) + 1
      ensures GetById(created.id) == Some(created)
    {
      created := t.(id := nextId);
      assert forall i :: 0 <= i < |rows| ==> rows[i] in rows;
      PairwiseAppend(rows, created, DifferentIds);
      rows := rows + [created];
      nextId := nextId + 1;
      assert created in rows;
      assert forall x :: x in rows && x.id == created.id ==> x == created;
    }

    /**
     * `update`: overwrite amount, category, date, description, payment method
     * and type of the row with `t.id`; its id and owner stay. The argument is
     * returned whether or not a row matched.
     */
    method Update(t: Transaction) returns (r: Transaction)
      requires Valid()
      modifies this
      ensures Valid() && r == t
      ensures nextId == old(nextId)
      ensures |rows| == |old(rows)|
      ensures forall i :: 0 <= i < |rows| ==>
        rows[i] == if old(rows)[i].id == t.id then Overwrite(old(rows)[i], t) else old(rows)[i]
    {
      var before := rows;
      rows := seq(|before|, i requires 0 <= i < |before| =>
        if before[i].id == t.id then Overwrite(before[i], t) else before[i]);
      LedgerRewrite(before, rows, nextId);
      r := t;
    }

    /** `delete`: remove the row with that id; true exactly when it existed. */
    method Delete(id: int) returns (ok: bool)
      requires Valid()
      modifies this
      ensures Valid()
      ensures ok <==> old(GetById(id)).Some?
      ensures rows == Where(old(rows), NotId(id)) && nextId == old(nextId)
      ensures GetById(id).None?
    {
      ok := GetById(id).Some?;
      LedgerWhere(rows, nextId, NotId(id));
      rows := Where(rows, NotId(id));
    }
  }
}
