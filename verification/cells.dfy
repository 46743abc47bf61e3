/**
 * The table the cleaning scripts work on.  A CSV row as read is a map from
 * column name to the cell's text, or `None` where pandas holds NaN; after
 * cleaning, each cell holds one typed `Cell`.  The table-level operations the
 * scripts use are here too: dropping columns, `drop_duplicates(keep="first")`
 * and selecting the rows a mask keeps.
 */
module Cells {
  import opened Wrappers

  datatype Date = Date(year: int, month: int, day: int)

  predicate IsLeapYear(y: int) {
    y % 4 == 0 && (y % 100 != 0 || y % 400 == 0)
  }

  function DaysInMonth(y: int, m: int): int
    requires 1 <= m <= 12
  {
    if m == 2 then (if IsLeapYear(y) then 29 else 28)
    else if m == 4 || m == 6 || m == 9 || m == 11 then 30
    else 31
  }

  /** A calendar day in the years a pandas `Timestamp` covers (1677 to 2262). */
  predicate ValidDate(d: Date) {
    1677 <= d.year <= 2262 && 1 <= d.month <= 12 && 1 <= d.day <= DaysInMonth(d.year, d.month)
  }

  type Timestamp = d: Date | ValidDate(d) witness Date(2000, 1, 1)

  /** One cleaned cell: NaN/NaT/None, a string, a number, a boolean or a date. */
  datatype Cell = Missing | Str(s: string) | Number(n: real) | Flag(b: bool) | Day(d: Timestamp)

  /** A row as read from the CSV: `None` is a cell pandas read as NaN. */
  type RawRow = map<string, Option<string>>

  /** A row after cleaning. */
  type Row = map<string, Cell>

  /** The row restricted to the columns `keep` accepts (`df.drop(columns=...)`). */
  function SelectColumns<V>(r: map<string, V>, keep: string -> bool): (q: map<string, V>)
    ensures forall c :: c in q <==> c in r && keep(c)
    ensures forall c :: c in q ==> q[c] == r[c]
  {
    map c | c in r && keep(c) :: r[c]
  }

  /** Index of the first occurrence of `x` in `s`. */
  function FirstIndex<T(==)>(s: seq<T>, x: T): (i: nat)
    requires x in s
    ensures i < |s| && s[i] == x
    ensures forall k :: 0 <= k < i ==> s[k] != x
  {
    if s[0] == x then 0 else 1 + FirstIndex(s[1..], x)
  }

  /**
   * The elements of `r` are in `s`, pairwise distinct, and in the order of
   * their first occurrence in `s`.
   */
  predicate OrderedBy<T(==)>(r: seq<T>, s: seq<T>) {
    (forall i :: 0 <= i < |r| ==> r[i] in s) &&
    forall i, j :: 0 <= i < j < |r| ==> FirstIndex(s, r[i]) < FirstIndex(s, r[j])
  }

  /** `drop_duplicates(keep="first")`: the first occurrence of each distinct row, in order (`DropDuplicatesOrdered`). */
  function DropDuplicates<T(==)>(s: seq<T>): (r: seq<T>)
    ensures |r| <= |s|
    ensures forall i :: 0 <= i < |s| ==> s[i] in r
    ensures forall i :: 0 <= i < |r| ==> r[i] in s
  {
    if s == [] then []
    else
      var init := s[..|s| - 1];
      var p := DropDuplicates(init);
      if s[|s| - 1] in init then p else p + [s[|s| - 1]]
  }

  /**
   * `df[mask]`: the elements `keep` accepts, in their order; each as often
   * as it occurs (`SelectCount`, `SelectAppend`).
   */
  function Select<T>(s: seq<T>, keep: T -> bool): (r: seq<T>)
    ensures |r| <= |s|
    ensures forall i :: 0 <= i < |r| ==> r[i] in s && keep(r[i])
    ensures forall i :: 0 <= i < |s| && keep(s[i]) ==> s[i] in r
  {
    if s == [] then []
    else (if keep(s[0]) then [s[0]] else []) + Select(s[1..], keep)
  }

  /** Apply `f` to every element. */
  function Map<T, U>(s: seq<T>, f: T -> U): (r: seq<U>)
    ensures |r| == |s|
    ensures forall i :: 0 <= i < |s| ==> r[i] == f(s[i])
  {
    seq(|s|, i requires 0 <= i < |s| => f(s[i]))
  }

  /**
   * `drop_duplicates(keep="first")`, then a rule applied to every row, then
   * the rows a mask keeps.  `kept` are the distinct input rows the output
   * rows come from, in order.
   */
  method DedupApplyFilter<R(==), C>(rows: seq<R>, apply: R -> C, keep: C -> bool, ghost keepSource: R -> bool)
    returns (out: seq<C>, ghost kept: seq<R>)
    requires forall x :: keepSource(x) == keep(apply(x))
    ensures |out| == |kept| <= |rows|
    ensures forall k :: 0 <= k < |out| ==> out[k] == apply(kept[k]) && keep(out[k])
    ensures OrderedBy(kept, rows)
    ensures forall i :: 0 <= i < |rows| && keep(apply(rows[i])) ==> rows[i] in kept
  {
    var distinct := DropDuplicates(rows);
    DropDuplicatesOrdered(rows);
    out := Select(Map(distinct, apply), keep);
    kept := Select(distinct, keepSource);
    SelectMap(distinct, apply, keep, keepSource);
    SelectOrdered(distinct, rows, keepSource);
    forall i | 0 <= i < |rows| && keep(apply(rows[i]))
      ensures rows[i] in kept
    {
      assert rows[i] in distinct;
    }
  }

  // ---------------------------------------------------------------------
  // Lemmas

  /** A mask keeps every accepted element as often as it occurs and drops every other one. */
  lemma {:induction false} SelectCount<T>(s: seq<T>, keep: T -> bool)
    ensures forall x :: multiset(Select(s, keep))[x] == if keep(x) then multiset(s)[x] else 0
  {
    if s != [] {
      SelectCount(s[1..], keep);
      assert s == [s[0]] + s[1..];
    }
  }

  /** A mask applied to two blocks of rows selects from the first block, then from the second. */
  lemma {:induction false} SelectAppend<T>(a: seq<T>, b: seq<T>, keep: T -> bool)
    ensures Select(a + b, keep) == Select(a, keep) + Select(b, keep)
  {
    if a == [] {
      assert a + b == b;
    } else {
      assert (a + b)[1..] == a[1..] + b;
      SelectAppend(a[1..], b, keep);
    }
  }

  lemma FirstIndexOfPrefix<T>(s: seq<T>, p: seq<T>)
    requires s != []
    requires forall i :: 0 <= i < |p| ==> p[i] in s[..|s| - 1]
    ensures forall i :: 0 <= i < |p| ==> FirstIndex(s, p[i]) == FirstIndex(s[..|s| - 1], p[i])
  {
    forall i | 0 <= i < |p|
      ensures FirstIndex(s, p[i]) == FirstIndex(s[..|s| - 1], p[i])
    {
      FirstIndexPrefix(s, |s| - 1, p[i]);
    }
  }

  lemma {:induction false} FirstIndexPrefix<T>(s: seq<T>, n: nat, x: T)
    requires n <= |s| && x in s[..n]
    ensures FirstIndex(s, x) == FirstIndex(s[..n], x)
  {
    if s[0] != x {
      assert s[1..][..n - 1] == s[..n][1..];
      FirstIndexPrefix(s[1..], n - 1, x);
    }
  }

  /** The rows `drop_duplicates` keeps are distinct and in the order of their first occurrence. */
  lemma {:induction false} DropDuplicatesOrdered<T>(s: seq<T>)
    ensures OrderedBy(DropDuplicates(s), s)
  {
    if s != [] {
      var init := s[..|s| - 1];
      var p := DropDuplicates(init);
      DropDuplicatesOrdered(init);
      FirstIndexOfPrefix(s, p);
      if s[|s| - 1] !in init {
        assert FirstIndex(s, s[|s| - 1]) == |s| - 1;
      }
    }
  }

  /** Ordered elements are pairwise distinct. */
  lemma OrderedDistinct<T>(r: seq<T>, s: seq<T>)
    requires OrderedBy(r, s)
    ensures forall i, j :: 0 <= i < j < |r| ==> r[i] != r[j]
  {
  }

  lemma OrderedCons<T>(x: T, rest: seq<T>, s: seq<T>)
    requires x in s && OrderedBy(rest, s)
    requires forall i :: 0 <= i < |rest| ==> FirstIndex(s, x) < FirstIndex(s, rest[i])
    ensures OrderedBy([x] + rest, s)
  {
    var q := [x] + rest;
    forall i, j | 0 <= i < j < |q|
      ensures FirstIndex(s, q[i]) < FirstIndex(s, q[j])
    {
      assert q[j] == rest[j - 1];
      if i > 0 {
        assert q[i] == rest[i - 1];
      }
    }
  }

  lemma OrderedHead<T>(r: seq<T>, s: seq<T>, y: T)
    requires r != [] && OrderedBy(r, s) && y in r[1..]
    ensures FirstIndex(s, r[0]) < FirstIndex(s, y)
  {
    var k :| 0 <= k < |r[1..]| && r[1..][k] == y;
    assert r[k + 1] == y;
  }

  /** Selecting rows keeps them in their order. */
  lemma {:induction false} SelectOrdered<T>(r: seq<T>, s: seq<T>, keep: T -> bool)
    requires OrderedBy(r, s)
    ensures OrderedBy(Select(r, keep), s)
  {
    if r != [] {
      assert OrderedBy(r[1..], s);
      SelectOrdered(r[1..], s, keep);
      var rest := Select(r[1..], keep);
      if keep(r[0]) {
        forall i | 0 <= i < |rest|
          ensures FirstIndex(s, r[0]) < FirstIndex(s, rest[i])
        {
          OrderedHead(r, s, rest[i]);
        }
        OrderedCons(r[0], rest, s);
      }
    }
  }

  /** Mapping then selecting is selecting by the mapped value, then mapping. */
  lemma {:induction false} SelectMap<T, U>(s: seq<T>, f: T -> U, keep: U -> bool, keepMapped: T -> bool)
    requires forall x :: keepMapped(x) == keep(f(x))
    ensures Select(Map(s, f), keep) == Map(Select(s, keepMapped), f)
  {
    if s != [] {
      assert Map(s, f)[1..] == Map(s[1..], f);
      SelectMap(s[1..], f, keep, keepMapped);
    }
  }

  /** A sequence without repeated elements is left as it is by `drop_duplicates`. */
  lemma {:induction false} DropDuplicatesDistinct<T>(s: seq<T>)
    requires forall i, j :: 0 <= i < j < |s| ==> s[i] != s[j]
    ensures DropDuplicates(s) == s
  {
    if s != [] {
      var init := s[..|s| - 1];
      DropDuplicatesDistinct(init);
      assert s[|s| - 1] !in init;
      assert init + [s[|s| - 1]] == s;
    }
  }

  /** `drop_duplicates` is idempotent. */
  lemma DropDuplicatesIdempotent<T>(s: seq<T>)
    ensures DropDuplicates(DropDuplicates(s)) == DropDuplicates(s)
  {
    DropDuplicatesOrdered(s);
    OrderedDistinct(DropDuplicates(s), s);
    DropDuplicatesDistinct(DropDuplicates(s));
  }
}
