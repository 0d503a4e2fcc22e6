/**
 * An insertion-ordered dictionary, the semantics of a Python `dict`:
 * a sequence of (key, value) entries with pairwise distinct keys, kept
 * in the order in which the keys were first inserted.
 */
module InsertionOrder {
  import opened Wrappers

  type Entries<K, V> = seq<(K, V)>

  /** The keys in insertion order (`list(d.keys())`). */
  function Keys<K, V>(t: Entries<K, V>): seq<K>
  {
    seq(|t|, i requires 0 <= i < |t| => t[i].0)
  }

  /** The values in insertion order (`list(d.values())`). */
  function Values<K, V>(t: Entries<K, V>): seq<V>
  {
    seq(|t|, i requires 0 <= i < |t| => t[i].1)
  }

  /** Every key occurs at most once: the invariant of a dictionary. */
  ghost predicate UniqueKeys<K, V>(t: Entries<K, V>)
  {
    forall i, j :: 0 <= i < j < |t| ==> t[i].0 != t[j].0
  }

  /** The position of key `k`, the first entry that carries it. */
  function IndexOf<K(==), V>(t: Entries<K, V>, k: K): (i: nat)
    requires k in Keys(t)
    ensures i < |t| && t[i].0 == k
    ensures forall j :: 0 <= j < i ==> t[j].0 != k
  {
    if t[0].0 == k then 0
    else
      assert Keys(t) == [t[0].0] + Keys(t[1..]);
      1 + IndexOf(t[1..], k)
  }

  /** `d.get(k)`: the value stored under `k`, or None. */
  function Get<K(==), V>(t: Entries<K, V>, k: K): Option<V>
  {
    if k in Keys(t) then Some(t[IndexOf(t, k)].1) else None
  }

  /** With distinct keys, the entry at position `i` is what `Get` finds. */
  lemma GetAt<K, V>(t: Entries<K, V>, i: nat)
    requires UniqueKeys(t) && i < |t|
    ensures Get(t, t[i].0) == Some(t[i].1)
  {
    assert Keys(t)[i] == t[i].0;
    var j := IndexOf(t, t[i].0);
    assert j == i;
  }

  /**
   * `d[k] = v`: an existing key keeps its position and gets the new value,
   * a new key is appended at the end; every other entry is left as it was.
   */
  function Put<K(==,!new), V>(t: Entries<K, V>, k: K, v: V): (r: Entries<K, V>)
    requires UniqueKeys(t)
    ensures UniqueKeys(r)
    ensures Get(r, k) == Some(v)
    ensures forall k' :: k' != k ==> Get(r, k') == Get(t, k')
    ensures k in Keys(t) ==> Keys(r) == Keys(t) && IndexOf(r, k) == IndexOf(t, k)
    ensures k !in Keys(t) ==> r == t + [(k, v)] && Keys(r) == Keys(t) + [k]
  {
    if k in Keys(t) then
      var i := IndexOf(t, k);
      var r := t[i := (k, v)];
      assert Keys(r) == Keys(t);
      GetAt(r, i);
      forall k' | k' != k ensures Get(r, k') == Get(t, k') {
        if k' in Keys(t) {
          var j := IndexOf(t, k');
          GetAt(t, j);
          GetAt(r, j);
        }
      }
      r
    else
      var r := t + [(k, v)];
      assert Keys(r) == Keys(t) + [k];
      assert UniqueKeys(r) by {
        forall i, j | 0 <= i < j < |r| ensures r[i].0 != r[j].0 {
          if j == |t| { assert Keys(t)[i] == t[i].0; }
        }
      }
      GetAt(r, |t|);
      forall k' | k' != k ensures Get(r, k') == Get(t, k') {
        if k' in Keys(t) {
          var j := IndexOf(t, k');
          GetAt(t, j);
          GetAt(r, j);
        }
      }
      r
  }
}
