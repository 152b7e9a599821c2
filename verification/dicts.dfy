/**
 * Python dicts as the model sees them: the (key, value) entries in
 * insertion order. Membership, `d.get(key)` and `list(d.keys())` are the
 * operations the converter uses.
 */
module Dicts {
  import opened Wrappers

  /** A dict's entries in insertion order. */
  type Dict<V> = seq<(string, V)>

  /** `list(d.keys())`: the keys in insertion order. */
  function Keys<V>(d: Dict<V>): (keys: seq<string>)
    ensures |keys| == |d|
    ensures forall i :: 0 <= i < |d| ==> keys[i] == d[i].0
  {
    seq(|d|, i requires 0 <= i < |d| => d[i].0)
  }

  /** No key occurs twice, as in every Python dict. */
  ghost predicate DistinctKeys<V>(d: Dict<V>)
  {
    forall i, j :: 0 <= i < j < |d| ==> d[i].0 != d[j].0
  }

  /**
   * `d.get(key)`: the value stored under `key` if `key in d`, and None
   * otherwise; the value found is one the dict holds under that key.
   */
  function Get<V>(d: Dict<V>, key: string): (r: Option<V>)
    ensures r.None? <==> key !in Keys(d)
    ensures r.Some? ==> (key, r.value) in d
  {
    if d == [] then None
    else if d[0].0 == key then Some(d[0].1)
    else
      assert Keys(d) == [d[0].0] + Keys(d[1..]);
      Get(d[1..], key)
  }

  /** In a dict with distinct keys, the lookup of the i-th key gives the i-th value. */
  lemma {:induction false} GetAt<V>(d: Dict<V>, i: nat)
    requires DistinctKeys(d) && i < |d|
    ensures Get(d, d[i].0) == Some(d[i].1)
  {
    if i > 0 {
      assert d[0].0 != d[i].0;
      GetAt(d[1..], i - 1);
    }
  }
}
