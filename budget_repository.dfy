/**
 * The budget table as an in-memory store: a sequence of rows in insertion
 * order, the AUTOINCREMENT counter for ids, and a counter standing for the
 * `created_at` timestamp. The table's `UNIQUE(user_id, category)` constraint
 * is part of the class invariant.
 */
module BudgetRepositories {
  import opened Wrappers
  import opened Models
  import opened Seqs

  /** Two rows never share an id (the primary key). */
  function DistinctIds(a: Budget, b: Budget): bool { a.id != b.id }

  /** Two rows never share a (user, category) pair (the UNIQUE constraint). */
  function DistinctKeys(a: Budget, b: Budget): bool { a.userId != b.userId || a.category != b.category }

  /** An earlier row was created strictly earlier. */
  function CreatedBefore(a: Budget, b: Budget): bool { a.createdAt < b.createdAt }

  /** A later row was created strictly later (the order of `ORDER BY created_at DESC`). */
  function CreatedAfter(a: Budget, b: Budget): bool { a.createdAt > b.createdAt }

  function HasBudgetId(id: int): Budget -> bool { (b: Budget) => b.id == id }
  function NotBudgetId(id: int): Budget -> bool { (b: Budget) => b.id != id }
  function BudgetOfUser(u: int): Budget -> bool { (b: Budget) => b.userId == u }
  function HasBudgetKey(u: int, c: string): Budget -> bool { (b: Budget) => b.userId == u && b.category == c }
  function NotBudgetKey(u: int, c: string): Budget -> bool { (b: Budget) => !(b.userId == u && b.category == c) }

  /** What the table guarantees about its rows at all times. */
  predicate WellFormed(rows: seq<Budget>, nextId: int, clock: nat)
  {
    && Pairwise(rows, DistinctIds)
    && Pairwise(rows, DistinctKeys)
    && Pairwise(rows, CreatedBefore)
    && (forall b :: b in rows ==> 0 < b.id < nextId && b.createdAt < clock)
  }

  /** Appending a row with a fresh id, a fresh stamp and a free key keeps the table well formed. */
  lemma WellFormedAppend(rows: seq<Budget>, nextId: int, clock: nat, b: Budget)
    requires WellFormed(rows, nextId, clock)
    requires forall r :: r in rows ==> !(r.userId == b.userId && r.category == b.category)
    requires 0 < nextId
    ensures WellFormed(rows + [b.(id := nextId, createdAt := clock)], nextId + 1, clock + 1)
  {
    var n := b.(id := nextId, createdAt := clock);
    assert forall i :: 0 <= i < |rows| ==> rows[i] in rows;
    PairwiseAppend(rows, n, DistinctIds);
    PairwiseAppend(rows, n, DistinctKeys);
    PairwiseAppend(rows, n, CreatedBefore);
  }

  /** Removing rows keeps the table well formed. */
  lemma WellFormedWhere(rows: seq<Budget>, nextId: int, clock: nat, p: Budget -> bool)
    requires WellFormed(rows, nextId, clock)
    ensures WellFormed(Where(rows, p), nextId, clock)
  {
    WherePairwise(rows, p, DistinctIds);
    WherePairwise(rows, p, DistinctKeys);
    WherePairwise(rows, p, CreatedBefore);
  }

  /** The UNIQUE constraint: at most one row per (user, category). */
  lemma KeyUnique(rows: seq<Budget>, nextId: int, clock: nat, a: Budget, b: Budget)
    requires WellFormed(rows, nextId, clock)
    requires a in rows && b in rows
    requires a.userId == b.userId && a.category == b.category
    ensures a == b
  {
    var i :| 0 <= i < |rows| && rows[i] == a;
    var j :| 0 <= j < |rows| && rows[j] == b;
  }

  /** The fields `update` rewrites: allocation, period and the two dates. */
  function Rewrite(row: Budget, b: Budget): (r: Budget)
    ensures r.id == row.id && r.userId == row.userId && r.category == row.category && r.createdAt == row.createdAt
    ensures r.allocatedAmount == b.allocatedAmount && r.period == b.period
    ensures r.startDate == b.startDate && r.endDate == b.endDate
  {
    row.(allocatedAmount := b.allocatedAmount, period := b.period, startDate := b.startDate, endDate := b.endDate)
  }

  /** The row with only its allocation changed (`update_allocation`). */
  function Reallocate(row: Budget, amount: real): (r: Budget)
    ensures r.allocatedAmount == amount
    ensures r.id == row.id && r.userId == row.userId && r.category == row.category
    ensures r.period == row.period && r.startDate == row.startDate && r.endDate == row.endDate
    ensures r.createdAt == row.createdAt
  {
    row.(allocatedAmount := amount)
  }

  /**
   * Rewriting rows in place without touching id, user, category or stamp
   * keeps the table well formed.
   */
  lemma WellFormedRewrite(rows: seq<Budget>, rows': seq<Budget>, nextId: int, clock: nat)
    requires WellFormed(rows, nextId, clock)
    requires |rows'| == |rows|
    requires forall i :: 0 <= i < |rows| ==>
      && rows'[i].id == rows[i].id && rows'[i].userId == rows[i].userId
      && rows'[i].category == rows[i].category && rows'[i].createdAt == rows[i].createdAt
    ensures WellFormed(rows', nextId, clock)
  {
    forall i, j | 0 <= i < j < |rows'|
      ensures DistinctIds(rows'[i], rows'[j]) && DistinctKeys(rows'[i], rows'[j]) && CreatedBefore(rows'[i], rows'[j])
    {
      assert DistinctIds(rows[i], rows[j]) && DistinctKeys(rows[i], rows[j]) && CreatedBefore(rows[i], rows[j]);
    }
    forall b | b in rows' ensures 0 < b.id < nextId && b.createdAt < clock {
      var i :| 0 <= i < |rows'| && rows'[i] == b;
      assert rows[i] in rows;
    }
  }

  /** A table listed newest first is in strictly decreasing stamp order. */
  lemma ReverseNewestFirst(s: seq<Budget>)
    requires Pairwise(s, CreatedBefore)
    ensures Pairwise(Reverse(s), CreatedAfter)
  {
    var r := Reverse(s);
    forall i, j | 0 <= i < j < |r| ensures CreatedAfter(r[i], r[j]) {
      assert CreatedBefore(s[|s| - 1 - j], s[|s| - 1 - i]);
    }
  }

  class BudgetRepository {
    /** The rows in insertion order. */
    var rows: seq<Budget>
    /** The next id AUTOINCREMENT hands out. */
    var nextId: int
    /** The next creation stamp. */
    var clock: nat

    predicate Valid()
      reads this
    {
      0 < nextId && WellFormed(rows, nextId, clock)
    }

    constructor()
      ensures Valid() && rows == []
    {
      rows := [];
      nextId := 1;
      clock := 0;
    }

    /** `get_by_id`: the row with that id, if any. */
    function GetById(id: int): (r: Option<Budget>)
      reads this
      ensures r.Some? ==> r.value in rows && r.value.id == id
      ensures r.None? <==> forall b :: b in rows ==> b.id != id
    {
      First(rows, HasBudgetId(id))
    }

    /** `get_by_category`: the user's budget for that category, if any. */
    function GetByCategory(u: int, c: string): (r: Option<Budget>)
      reads this
      ensures r.Some? ==> r.value in rows && r.value.userId == u && r.value.category == c
      ensures r.None? <==> forall b :: b in rows ==> !(b.userId == u && b.category == c)
    {
      First(rows, HasBudgetKey(u, c))
    }

    /** `get_by_user_id`: exactly the user's budgets, newest first. */
    function GetByUserId(u: int): (r: seq<Budget>)
      requires Valid()
      reads this
      ensures forall b :: b in r <==> b in rows && b.userId == u
      ensures Pairwise(r, CreatedAfter)
    {
      WherePairwise(rows, BudgetOfUser(u), CreatedBefore);
      ReverseNewestFirst(Where(rows, BudgetOfUser(u)));
      Reverse(Where(rows, BudgetOfUser(u)))
    }

    /**
     * `create`: insert with the next id and stamp. A second budget for the
     * same (user, category) violates the UNIQUE constraint: nothing is
     * inserted and the result is `None`.
     */
    method Create(b: Budget) returns (r: Option<Budget>)
      requires Valid()
      modifies this
      ensures Valid()
      ensures old(GetByCategory(b.userId, b.category)).Some? ==>
        r.None? && rows == old(rows) && nextId == old(nextId) && clock == old(clock)
      ensures old(GetByCategory(b.userId, b.category)).None? ==>
        && r == Some(b.(id := old(nextId), createdAt := old(clock)))
        && rows == old(rows) + [r.value]
        && nextId == old(nextId) + 1 && clock == old(clock) + 1
      ensures r.Some? ==> GetById(r.value.id) == Some(r.value)
    {
      if GetByCategory(b.userId, b.category).Some? {
        return None;
      }
      var n := b.(id := nextId, createdAt := clock);
      WellFormedAppend(rows, nextId, clock, b);
      rows := rows + [n];
      nextId := nextId + 1;
      clock := clock + 1;
      r := Some(n);
      assert n in rows;
      assert forall x :: x in rows && x.id == n.id ==> x == n;
    }

    /**
     * `update`: rewrite allocation, period and dates of the row with
     * `b.id`; user and category stay as stored. The argument is returned.
     */
    method Update(b: Budget) returns (r: Budget)
      requires Valid()
      modifies this
      ensures Valid() && r == b
      ensures nextId == old(nextId) && clock == old(clock)
      ensures |rows| == |old(rows)|
      ensures forall i :: 0 <= i < |rows| ==>
        rows[i] == if old(rows)[i].id == b.id then Rewrite(old(rows)[i], b) else old(rows)[i]
    {
      var before := rows;
      rows := seq(|before|, i requires 0 <= i < |before| =>
        if before[i].id == b.id then Rewrite(before[i], b) else before[i]);
      WellFormedRewrite(before, rows, nextId, clock);
      r := b;
    }

    /**
     * `update_allocation`: set `allocated_amount` of the row with that id and
     * nothing else; true exactly when such a row exists.
     */
    method UpdateAllocation(id: int, amount: real) returns (ok: bool)
      requires Valid()
      modifies this
      ensures Valid()
      ensures ok <==> old(GetById(id)).Some?
      ensures nextId == old(nextId) && clock == old(clock)
      ensures |rows| == |old(rows)|
      ensures forall i :: 0 <= i < |rows| ==>
        rows[i] == if old(rows)[i].id == id then Reallocate(old(rows)[i], amount) else old(rows)[i]
    {
      ok := GetById(id).Some?;
      var before := rows;
      rows := seq(|before|, i requires 0 <= i < |before| =>
        if before[i].id == id then Reallocate(before[i], amount) else before[i]);
      WellFormedRewrite(before, rows, nextId, clock);
    }

    /** `delete`: remove the row with that id; true exactly when it existed. */
    method Delete(id: int) returns (ok: bool)
      requires Valid()
      modifies this
      ensures Valid()
      ensures ok <==> old(GetById(id)).Some?
      ensures rows == Where(old(rows), NotBudgetId(id))
      ensures nextId == old(nextId) && clock == old(clock)
      ensures GetById(id).None?
    {
      ok := GetById(id).Some?;
      WellFormedWhere(rows, nextId, clock, NotBudgetId(id));
      rows := Where(rows, NotBudgetId(id));
    }

    /**
     * `delete_by_user_and_category`: remove the row with that key and no
     * other; true exactly when it existed.
     */
    method DeleteByUserAndCategory(u: int, c: string) returns (ok: bool)
      requires Valid()
      modifies this
      ensures Valid()
      ensures ok <==> old(GetByCategory(u, c)).Some?
      ensures rows == Where(old(rows), NotBudgetKey(u, c))
      ensures nextId == old(nextId) && clock == old(clock)
      ensures GetByCategory(u, c).None?
    {
      ok := GetByCategory(u, c).Some?;
      WellFormedWhere(rows, nextId, clock, NotBudgetKey(u, c));
      rows := Where(rows, NotBudgetKey(u, c));
    }
  }
}
