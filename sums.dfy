/**
 * Aggregation over ledger rows: sums of amounts (SQL `SUM`), the
 * `ORDER BY date DESC` of the repository's listings, and group-by sums
 * (SQL `GROUP BY` and the dictionary accumulators of the services).
 */
module Sums {
  import opened Wrappers
  import opened Models
  import opened Seqs
  import Text

  /** The sum of the amounts of `s`; 0 when there are no rows. */
  function Total(s: seq<Transaction>): (r: real)
    ensures (forall i :: 0 <= i < |s| ==> s[i].amount >= 0.0) ==> r >= 0.0
  {
    if s == [] then 0.0 else Total(s[..|s| - 1]) + s[|s| - 1].amount
  }

  lemma {:induction false} TotalAppend(a: seq<Transaction>, b: seq<Transaction>)
    ensures Total(a + b) == Total(a) + Total(b)
  {
    if b != [] {
      assert (a + b)[..|a + b| - 1] == a + b[..|b| - 1];
      TotalAppend(a, b[..|b| - 1]);
    } else {
      assert a + b == a;
    }
  }

  /** One step of a loop that sums the rows meeting `p`. */
  lemma TotalWhereStep(s: seq<Transaction>, i: nat, p: Transaction -> bool)
    requires i < |s|
    ensures Total(Where(s[..i + 1], p)) == Total(Where(s[..i], p)) + (if p(s[i]) then s[i].amount else 0.0)
  {
    assert s[..i + 1][..i] == s[..i];
    var tail := if p(s[i]) then [s[i]] else [];
    assert Where(s[..i + 1], p) == Where(s[..i], p) + tail;
    TotalAppend(Where(s[..i], p), tail);
    if tail != [] {
      assert tail[..0] == [];
    }
  }

  /** A condition no row meets sums to 0. */
  lemma {:induction false} TotalWhereNone(s: seq<Transaction>, p: Transaction -> bool)
    requires forall t :: t in s ==> !p(t)
    ensures Total(Where(s, p)) == 0.0
  {
    if s != [] {
      var init, last := s[..|s| - 1], s[|s| - 1];
      assert forall t :: t in init ==> t in s;
      TotalWhereNone(init, p);
      assert !p(last);
      assert Where(s, p) == Where(init, p) + [];
      assert Where(s, p) == Where(init, p);
    }
  }

  /** Dates never increase along `s` (`ORDER BY date DESC`). */
  predicate DateDescending(s: seq<Transaction>)
  {
    forall i, j :: 0 <= i < j < |s| ==> Text.LexLe(s[j].date, s[i].date)
  }

  /** Where `t` goes in a date-descending sequence: after every row dated later. */
  function InsertionPoint(t: Transaction, s: seq<Transaction>): (k: nat)
    ensures k <= |s|
  {
    if s == [] || Text.LexLe(s[0].date, t.date) then 0 else 1 + InsertionPoint(t, s[1..])
  }

  lemma {:induction false} InsertionPointFacts(t: Transaction, s: seq<Transaction>)
    ensures forall i :: 0 <= i < InsertionPoint(t, s) ==> !Text.LexLe(s[i].date, t.date)
    ensures InsertionPoint(t, s) < |s| ==> Text.LexLe(s[InsertionPoint(t, s)].date, t.date)
  {
    if s != [] && !Text.LexLe(s[0].date, t.date) {
      InsertionPointFacts(t, s[1..]);
    }
  }

  /** `t` placed into `s` at its insertion point. */
  function InsertByDate(t: Transaction, s: seq<Transaction>): (r: seq<Transaction>)
  {
    var k := InsertionPoint(t, s);
    s[..k] + [t] + s[k..]
  }

  /** Inserting at the insertion point keeps the dates descending. */
  lemma InsertKeepsOrder(t: Transaction, s: seq<Transaction>)
    requires DateDescending(s)
    ensures DateDescending(InsertByDate(t, s))
  {
    var k := InsertionPoint(t, s);
    InsertionPointFacts(t, s);
    var r := InsertByDate(t, s);
    assert |r| == |s| + 1;
    assert forall i :: 0 <= i < k ==> r[i] == s[i];
    assert r[k] == t;
    assert forall i :: k < i < |r| ==> r[i] == s[i - 1];
    forall i, j | 0 <= i < j < |r| ensures Text.LexLe(r[j].date, r[i].date) {
      if j < k {
        assert Text.LexLe(s[j].date, s[i].date);
      } else if i < k && j == k {
        Text.LexLeTotalOrder(s[i].date, t.date, t.date);
      } else if i < k {
        assert Text.LexLe(s[j - 1].date, s[i].date);
      } else if i == k {
        Text.LexLeTotalOrder(s[j - 1].date, s[k].date, t.date);
        if j - 1 > k {
          assert Text.LexLe(s[j - 1].date, s[k].date);
        }
      } else {
        assert Text.LexLe(s[j - 1].date, s[i - 1].date);
      }
    }
  }

  /** Inserting adds exactly the one row. */
  lemma InsertKeepsRows(t: Transaction, s: seq<Transaction>)
    ensures multiset(InsertByDate(t, s)) == multiset(s) + multiset{t}
  {
    var k := InsertionPoint(t, s);
    assert s == s[..k] + s[k..];
  }

  /**
   * The repository's `ORDER BY date DESC`: a stable insertion sort, so rows
   * with the same date keep their storage order.
   */
  function SortByDateDesc(s: seq<Transaction>): (r: seq<Transaction>)
    ensures |r| == |s|
  {
    if s == [] then [] else InsertByDate(s[0], SortByDateDesc(s[1..]))
  }

  /** The sort orders by date, latest first, and keeps every row exactly once. */
  lemma {:induction false} SortByDateDescSpec(s: seq<Transaction>)
    ensures DateDescending(SortByDateDesc(s))
    ensures multiset(SortByDateDesc(s)) == multiset(s)
  {
    if s != [] {
      SortByDateDescSpec(s[1..]);
      InsertKeepsOrder(s[0], SortByDateDesc(s[1..]));
      InsertKeepsRows(s[0], SortByDateDesc(s[1..]));
      assert s == [s[0]] + s[1..];
    }
  }

  /** The sort keeps exactly the rows it is given. */
  lemma SortSameRows(s: seq<Transaction>)
    ensures forall t :: t in SortByDateDesc(s) <==> t in s
  {
    SortByDateDescSpec(s);
    forall t ensures t in SortByDateDesc(s) <==> t in s {
      assert t in SortByDateDesc(s) <==> t in multiset(SortByDateDesc(s));
      assert t in s <==> t in multiset(s);
    }
  }

  /** The filtered total of `a + b` splits into the totals of the parts. */
  lemma TotalWhereAppend(a: seq<Transaction>, b: seq<Transaction>, p: Transaction -> bool)
    ensures Total(Where(a + b, p)) == Total(Where(a, p)) + Total(Where(b, p))
  {
    WhereAppend(a, b, p);
    TotalAppend(Where(a, p), Where(b, p));
  }

  /** Moving one row to another place does not change a filtered total. */
  lemma TotalWhereSplice(a: seq<Transaction>, x: Transaction, b: seq<Transaction>, p: Transaction -> bool)
    ensures Total(Where(a + [x] + b, p)) == Total(Where([x] + (a + b), p))
  {
    TotalWhereAppend(a + [x], b, p);
    TotalWhereAppend(a, [x], p);
    TotalWhereAppend(a, b, p);
    TotalWhereAppend([x], a + b, p);
  }

  /** Sorting does not change what any filter sums to. */
  lemma {:induction false} SortKeepsTotal(s: seq<Transaction>, p: Transaction -> bool)
    ensures Total(Where(SortByDateDesc(s), p)) == Total(Where(s, p))
  {
    if s != [] {
      var rest := SortByDateDesc(s[1..]);
      var k := InsertionPoint(s[0], rest);
      calc {
        Total(Where(SortByDateDesc(s), p));
        { assert SortByDateDesc(s) == rest[..k] + [s[0]] + rest[k..]; }
        Total(Where(rest[..k] + [s[0]] + rest[k..], p));
        { TotalWhereSplice(rest[..k], s[0], rest[k..], p); assert rest[..k] + rest[k..] == rest; }
        Total(Where([s[0]] + rest, p));
        { TotalWhereAppend([s[0]], rest, p); }
        Total(Where([s[0]], p)) + Total(Where(rest, p));
        { SortKeepsTotal(s[1..], p); }
        Total(Where([s[0]], p)) + Total(Where(s[1..], p));
        { TotalWhereAppend([s[0]], s[1..], p); assert [s[0]] + s[1..] == s; }
        Total(Where(s, p));
      }
    }
  }

  /** Every row. */
  function Everything(): Transaction -> bool { (t: Transaction) => true }

  /** Sorting does not change the sum. */
  lemma SortKeepsSum(s: seq<Transaction>)
    ensures Total(SortByDateDesc(s)) == Total(s)
  {
    SortKeepsTotal(s, Everything());
    SortSameRows(s);
    WhereAll(s, Everything());
    WhereAll(SortByDateDesc(s), Everything());
  }

  /**
   * `SELECT * ... WHERE p ORDER BY date DESC`: exactly the rows meeting `p`,
   * each as often as it is stored, latest date first.
   */
  function Listing(rows: seq<Transaction>, p: Transaction -> bool): (r: seq<Transaction>)
    ensures forall t :: t in r <==> t in rows && p(t)
    ensures DateDescending(r)
    ensures multiset(r) == multiset(Where(rows, p))
  {
    SortByDateDescSpec(Where(rows, p));
    SortSameRows(Where(rows, p));
    SortByDateDesc(Where(rows, p))
  }

  /** `dict.get(k, 0)` on a dictionary of totals. */
  function Get(m: map<string, real>, k: string): real
  {
    if k in m then m[k] else 0.0
  }

  /**
   * Group-by-sum, written as the accumulator loops of the services write
   * it: for each row with a key, `m[key] = m.get(key, 0) + amount`; rows
   * without a key are skipped.
   */
  function GroupTotals(s: seq<Transaction>, key: Transaction -> Option<string>): (r: map<string, real>)
    ensures forall k :: k in r ==> exists t :: t in s && key(t) == Some(k)
  {
    if s == [] then map[] else AddRow(GroupTotals(s[..|s| - 1], key), key, s[|s| - 1])
  }

  /** One step of the accumulator loop. */
  function AddRow(m: map<string, real>, key: Transaction -> Option<string>, t: Transaction): map<string, real>
  {
    match key(t)
    case None => m
    case Some(k) => m[k := Get(m, k) + t.amount]
  }

  /** The rows whose key is `k`. */
  function HasKey(key: Transaction -> Option<string>, k: string): Transaction -> bool
  {
    t => key(t) == Some(k)
  }

  /** The rows that have a key at all. */
  function Keyed(key: Transaction -> Option<string>): Transaction -> bool
  {
    t => key(t).Some?
  }

  /** A group-by-sum holds exactly the keys that occur: there are no zero entries. */
  lemma {:induction false} GroupTotalsKeys(s: seq<Transaction>, key: Transaction -> Option<string>, k: string)
    ensures k in GroupTotals(s, key) <==> exists t :: t in s && key(t) == Some(k)
  {
    if s != [] {
      var init, last := s[..|s| - 1], s[|s| - 1];
      GroupTotalsKeys(init, key, k);
      assert s == init + [last];
      assert forall t :: t in s <==> t in init || t == last;
    }
  }

  /** Each entry of a group-by-sum is the total of the rows with that key. */
  lemma {:induction false} GroupTotalsValue(s: seq<Transaction>, key: Transaction -> Option<string>, k: string)
    ensures Get(GroupTotals(s, key), k) == Total(Where(s, HasKey(key, k)))
  {
    if s != [] {
      var init, last := s[..|s| - 1], s[|s| - 1];
      GroupTotalsValue(init, key, k);
      var tail := if HasKey(key, k)(last) then [last] else [];
      assert Where(s, HasKey(key, k)) == Where(init, HasKey(key, k)) + tail;
      TotalAppend(Where(init, HasKey(key, k)), tail);
      assert Total(tail) == if key(last) == Some(k) then last.amount else 0.0 by {
        if tail != [] {
          assert tail[..0] == [];
        }
      }
    }
  }

  /**
   * What a group-by-sum holds: exactly the keys that occur (no zero
   * entries), each mapped to the total of its rows.
   */
  lemma GroupTotalsSpec(s: seq<Transaction>, key: Transaction -> Option<string>, k: string)
    ensures k in GroupTotals(s, key) <==> exists t :: t in s && key(t) == Some(k)
    ensures Get(GroupTotals(s, key), k) == Total(Where(s, HasKey(key, k)))
  {
    GroupTotalsKeys(s, key, k);
    GroupTotalsValue(s, key, k);
  }

  /** The order of the rows does not matter to a group-by-sum. */
  lemma GroupTotalsOfSorted(s: seq<Transaction>, key: Transaction -> Option<string>)
    ensures GroupTotals(SortByDateDesc(s), key) == GroupTotals(s, key)
  {
    var a, b := GroupTotals(SortByDateDesc(s), key), GroupTotals(s, key);
    forall k ensures (k in a <==> k in b) && Get(a, k) == Get(b, k) {
      GroupTotalsSpec(SortByDateDesc(s), key, k);
      GroupTotalsSpec(s, key, k);
      SortKeepsTotal(s, HasKey(key, k));
      SortSameRows(s);
    }
    assert a.Keys == b.Keys;
  }

  /** The sum of a sequence of amounts. */
  function SumOf(xs: seq<real>): real
  {
    if xs == [] then 0.0 else SumOf(xs[..|xs| - 1]) + xs[|xs| - 1]
  }

  /** The totals stored under `keys`, in that order (`[m.get(k, 0) for k in keys]`). */
  function Lookup(m: map<string, real>, keys: seq<string>): (r: seq<real>)
    ensures |r| == |keys|
  {
    if keys == [] then [] else Lookup(m, keys[..|keys| - 1]) + [Get(m, keys[|keys| - 1])]
  }

  /** Entry `i` of the lookup is the total stored under `keys[i]`. */
  lemma {:induction false} LookupSpec(m: map<string, real>, keys: seq<string>)
    ensures forall i :: 0 <= i < |keys| ==> Lookup(m, keys)[i] == Get(m, keys[i])
  {
    if keys != [] {
      LookupSpec(m, keys[..|keys| - 1]);
    }
  }

  lemma {:induction false} SumLookupUpdate(m: map<string, real>, keys: seq<string>, k: string, v: real)
    requires Distinct(keys)
    ensures SumOf(Lookup(m[k := v], keys)) == SumOf(Lookup(m, keys)) + (if k in keys then v - Get(m, k) else 0.0)
  {
    if keys != [] {
      var init, last := keys[..|keys| - 1], keys[|keys| - 1];
      assert Distinct(init);
      SumLookupUpdate(m, init, k, v);
      var after, before := Lookup(m[k := v], keys), Lookup(m, keys);
      assert after[..|keys| - 1] == Lookup(m[k := v], init);
      assert before[..|keys| - 1] == Lookup(m, init);
      assert SumOf(after) == SumOf(Lookup(m[k := v], init)) + Get(m[k := v], last);
      assert SumOf(before) == SumOf(Lookup(m, init)) + Get(m, last);
      assert k in keys <==> k in init || k == last;
      if k == last {
        assert k !in init;
      }
    }
  }

  /**
   * The totals of a group-by-sum add up to the total of the keyed rows, when
   * read back under any list of distinct keys that covers the groups.
   */
  lemma {:induction false} GroupTotalsAddUp(s: seq<Transaction>, key: Transaction -> Option<string>, keys: seq<string>)
    requires Distinct(keys)
    requires forall t :: t in s && key(t).Some? ==> key(t).value in keys
    ensures SumOf(Lookup(GroupTotals(s, key), keys)) == Total(Where(s, Keyed(key)))
  {
    if s == [] {
      EmptyLookup(keys);
    } else {
      var init, last := s[..|s| - 1], s[|s| - 1];
      assert forall t :: t in init ==> t in s;
      GroupTotalsAddUp(init, key, keys);
      KeyedTotalStep(s, key);
      assert last in s;
      SumLookupAddRow(GroupTotals(init, key), key, last, keys);
    }
  }

  /** One accumulator step adds the row's amount to the looked-up totals. */
  lemma SumLookupAddRow(m: map<string, real>, key: Transaction -> Option<string>, t: Transaction, keys: seq<string>)
    requires Distinct(keys)
    requires key(t).Some? ==> key(t).value in keys
    ensures SumOf(Lookup(AddRow(m, key, t), keys)) == SumOf(Lookup(m, keys)) + (if key(t).Some? then t.amount else 0.0)
  {
    match key(t)
    case None =>
    case Some(k) =>
      var v := Get(m, k) + t.amount;
      assert AddRow(m, key, t) == m[k := v];
      SumLookupUpdate(m, keys, k, v);
      assert k in keys;
  }

  /** Peeling off the last row of a keyed total. */
  lemma KeyedTotalStep(s: seq<Transaction>, key: Transaction -> Option<string>)
    requires s != []
    ensures Total(Where(s, Keyed(key))) == Total(Where(s[..|s| - 1], Keyed(key)))
      + (if key(s[|s| - 1]).Some? then s[|s| - 1].amount else 0.0)
  {
    var init, last := s[..|s| - 1], s[|s| - 1];
    var tail := if Keyed(key)(last) then [last] else [];
    assert Where(s, Keyed(key)) == Where(init, Keyed(key)) + tail;
    TotalAppend(Where(init, Keyed(key)), tail);
    if tail != [] {
      assert tail[..0] == [];
    }
  }

  lemma {:induction false} EmptyLookup(keys: seq<string>)
    ensures SumOf(Lookup(map[], keys)) == 0.0
  {
    if keys != [] {
      EmptyLookup(keys[..|keys| - 1]);
      assert Lookup(map[], keys)[..|keys| - 1] == Lookup(map[], keys[..|keys| - 1]);
    }
  }

  /**
   * Grouping a listing: a key occurs exactly when some selected row has it,
   * and its entry is the total of the selected rows with that key.
   */
  lemma GroupedListing(rows: seq<Transaction>, p: Transaction -> bool, key: Transaction -> Option<string>,
                       k: string, both: Transaction -> bool)
    requires forall x :: both(x) == (p(x) && key(x) == Some(k))
    ensures k in GroupTotals(Listing(rows, p), key) <==> exists t :: t in rows && both(t)
    ensures Get(GroupTotals(Listing(rows, p), key), k) == Total(Where(rows, both))
  {
    var s := Where(rows, p);
    assert Listing(rows, p) == SortByDateDesc(s);
    GroupTotalsOfSorted(s, key);
    GroupTotalsSpec(s, key, k);
    WhereWhere(rows, p, HasKey(key, k), both);
    assert forall t :: t in s && key(t) == Some(k) <==> t in rows && both(t);
  }

  /**
   * The entries of a grouped listing, read back under distinct keys that
   * cover its groups, add up to the total of the selected rows that have a key.
   */
  lemma GroupedListingAddsUp(rows: seq<Transaction>, p: Transaction -> bool, key: Transaction -> Option<string>,
                             keys: seq<string>, both: Transaction -> bool)
    requires forall x :: both(x) == (p(x) && key(x).Some?)
    requires Distinct(keys)
    requires forall k :: k in GroupTotals(Listing(rows, p), key) ==> k in keys
    ensures SumOf(Lookup(GroupTotals(Listing(rows, p), key), keys)) == Total(Where(rows, both))
  {
    var s := Where(rows, p);
    var l := Listing(rows, p);
    assert l == SortByDateDesc(s);
    forall t | t in l && key(t).Some? ensures key(t).value in keys {
      GroupTotalsKeys(l, key, key(t).value);
    }
    GroupTotalsAddUp(l, key, keys);
    SortKeepsTotal(s, Keyed(key));
    WhereWhere(rows, p, Keyed(key), both);
  }

  /** Grouping keys of the services' accumulators. */
  function DateKey(t: Transaction): Option<string> { Some(t.date) }
  function PaymentMethodKey(t: Transaction): Option<string> { Some(t.paymentMethod) }
  function CategoryKey(t: Transaction): Option<string> { Some(t.category) }
}
