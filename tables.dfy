/**
 * Insertion-ordered dictionaries keyed by value: a Python `dict` literal, or
 * the own keys of a JavaScript object literal, as a sequence of pairs.
 */
module Tables {
  import opened Wrappers

  /**
   * `table.get(key)` / `table[key]`: the value stored under `key`. The scan
   * takes the first pair for `key`; no table in this model writes a key
   * twice, so this agrees with Python and JavaScript, which keep the last.
   */
  function Get<K(==), V>(table: seq<(K, V)>, key: K): (r: Option<V>)
    ensures r.Some? ==> (key, r.value) in table
  {
    if table == [] then None
    else if table[0].0 == key then Some(table[0].1)
    else Get(table[1..], key)
  }

  /** `list(table.keys())` / `Object.keys(table)`: the keys in insertion order. */
  function Keys<K, V>(table: seq<(K, V)>): (keys: seq<K>)
    ensures |keys| == |table|
    ensures forall i :: 0 <= i < |table| ==> keys[i] == table[i].0
  {
    seq(|table|, i requires 0 <= i < |table| => table[i].0)
  }

  /** Nothing is found exactly when no entry has the key. */
  lemma {:induction false} GetMisses<K, V>(table: seq<(K, V)>, key: K)
    ensures Get(table, key).None? <==> forall i :: 0 <= i < |table| ==> table[i].0 != key
  {
    if table != [] {
      GetMisses(table[1..], key);
      assert forall i :: 1 <= i < |table| ==> table[i] == table[1..][i - 1];
    }
  }

  /** A key has a value exactly when it is one of the keys. */
  lemma {:induction false} GetFindsKeys<K, V>(table: seq<(K, V)>, key: K)
    ensures Get(table, key).Some? <==> key in Keys(table)
  {
    if table != [] {
      GetFindsKeys(table[1..], key);
      assert Keys(table) == [table[0].0] + Keys(table[1..]);
    }
  }
}
