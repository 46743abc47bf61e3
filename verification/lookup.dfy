/**
 * peewee's `Model.get_or_create` on a table whose rows are only ever added:
 * the id of a row is its position plus one, as SQLite's automatic ids are
 * when nothing is deleted.  The loader (gestionar_obras.py) and the work
 * lifecycle (modelo_orm2.py) both find or add their lookup rows this way.
 */
module Lookup {
  import opened Cells

  /** No row of the table occurs twice. */
  predicate Distinct<T(==)>(t: seq<T>) {
    forall i, j :: 0 <= i < j < |t| ==> t[i] != t[j]
  }

  /** `1 <= id <= n`: the id of one of the `n` rows of a table. */
  predicate Ref(id: nat, n: nat) {
    1 <= id <= n
  }

  /** The id `get` returns for `k`: that of the first row equal to it. */
  function IdOf<K(==)>(t: seq<K>, k: K): (id: nat)
    requires k in t
    ensures Ref(id, |t|) && t[id - 1] == k
    ensures forall j :: 0 <= j < id - 1 ==> t[j] != k
  {
    FirstIndex(t, k) + 1
  }

  /** What `get_or_create` leaves behind: the table, the id of the row and whether it was added. */
  datatype Got<K> = Got(rows: seq<K>, id: nat, created: bool)

  /**
   * `get_or_create`: the id of the row equal to `k` when there is one;
   * otherwise `k` is added at the end and gets the next id.
   */
  function GetOrCreate<K(==)>(t: seq<K>, k: K): (g: Got<K>)
    ensures Ref(g.id, |g.rows|) && g.rows[g.id - 1] == k
    ensures g.created <==> k !in t
    ensures g.created ==> g.rows == t + [k] && g.id == |g.rows|
    ensures !g.created ==> g.rows == t
  {
    if k in t then Got(t, IdOf(t, k), false) else Got(t + [k], |t| + 1, true)
  }

  // ---------------------------------------------------------------------
  // Lemmas

  /** Asking again for the same row finds the one already there and adds nothing. */
  lemma GetOrCreateIdempotent<K>(t: seq<K>, k: K)
    ensures GetOrCreate(GetOrCreate(t, k).rows, k) == Got(GetOrCreate(t, k).rows, GetOrCreate(t, k).id, false)
  {
    var g := GetOrCreate(t, k);
    if g.created {
      assert forall j :: 0 <= j < |t| ==> g.rows[j] == t[j];
    }
  }

  /** The rows already in the table keep their ids. */
  lemma GetOrCreateKeepsIds<K>(t: seq<K>, k: K, x: K)
    requires x in t
    ensures x in GetOrCreate(t, k).rows && IdOf(GetOrCreate(t, k).rows, x) == IdOf(t, x)
  {
    var g := GetOrCreate(t, k);
    if g.created {
      assert g.rows[..|t|] == t;
      FirstIndexPrefix(g.rows, |t|, x);
    }
  }

  /** A table without repeated rows stays so, and the row found is the only one equal to `k`. */
  lemma GetOrCreateDistinct<K>(t: seq<K>, k: K)
    requires Distinct(t)
    ensures Distinct(GetOrCreate(t, k).rows)
    ensures forall j :: 0 <= j < |GetOrCreate(t, k).rows| && GetOrCreate(t, k).rows[j] == k ==> j == GetOrCreate(t, k).id - 1
  {
  }
}
