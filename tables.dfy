/** Keyed lookups over a table held as a sequence of rows: the store's
    `filter_by(<key columns>).first()` queries. Key functions are passed as
    named functions (`TargetKey`, `BudgetKey`, ...). */
module Tables {
  import opened Records

  /** The first row whose key is `k`, if any. */
  function IndexOfKey<T, K(==)>(rows: seq<T>, key: T -> K, k: K): (r: Option<nat>)
    ensures r.Some? ==> r.value < |rows| && key(rows[r.value]) == k
    ensures r.Some? ==> forall j :: 0 <= j < r.value ==> key(rows[j]) != k
    ensures r.None? <==> forall j :: 0 <= j < |rows| ==> key(rows[j]) != k
    decreases |rows|
  {
    if rows == [] then None
    else if key(rows[0]) == k then Some(0)
    else
      match IndexOfKey(rows[1..], key, k)
      case None => None
      case Some(i) => Some(i + 1)
  }

  /** At most one row per key. */
  ghost predicate UniqueKeys<T, K>(rows: seq<T>, key: T -> K) {
    forall i, j :: 0 <= i < j < |rows| ==> key(rows[i]) != key(rows[j])
  }

  /** Appending a row whose key is new keeps keys unique. */
  lemma AppendNewKey<T, K>(rows: seq<T>, key: T -> K, x: T)
    requires UniqueKeys(rows, key)
    requires IndexOfKey(rows, key, key(x)).None?
    ensures UniqueKeys(rows + [x], key)
  {
  }

  /** Overwriting a row with one of the same key keeps keys unique. */
  lemma OverwriteSameKey<T, K>(rows: seq<T>, key: T -> K, i: nat, x: T)
    requires UniqueKeys(rows, key)
    requires i < |rows| && key(x) == key(rows[i])
    ensures UniqueKeys(rows[i := x], key)
  {
  }

  /** Overwriting a row without changing its key does not move any lookup. */
  lemma OverwriteKeepsIndex<T, K>(rows: seq<T>, key: T -> K, i: nat, x: T, k: K)
    requires i < |rows| && key(x) == key(rows[i])
    ensures IndexOfKey(rows[i := x], key, k) == IndexOfKey(rows, key, k)
  {
    assert forall j :: 0 <= j < |rows| ==> key(rows[i := x][j]) == key(rows[j]);
  }

  /** Appending a row of another key does not move a lookup. */
  lemma AppendOtherKeepsIndex<T, K>(rows: seq<T>, key: T -> K, x: T, k: K)
    requires key(x) != k
    ensures IndexOfKey(rows + [x], key, k) == IndexOfKey(rows, key, k)
  {
    assert forall j :: 0 <= j < |rows| ==> (rows + [x])[j] == rows[j];
  }
}
