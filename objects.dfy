/**
 * String-keyed tables that remember insertion order, as JavaScript's plain
 * objects and `Map`s do: a new key goes to the end, and setting an existing
 * key changes its value in place.
 */
module Objects {
  import opened Wrappers

  /** The entries of an object or `Map`, in insertion order. */
  type Entries<V> = seq<(string, V)>

  /** The keys, in order (`Object.keys`, `map.keys()`). */
  function Keys<V>(o: Entries<V>): (r: seq<string>)
    ensures |r| == |o| && forall i :: 0 <= i < |o| ==> r[i] == o[i].0
  {
    if o == [] then [] else [o[0].0] + Keys(o[1..])
  }

  /** The values, in order (`map.values()`). */
  function Values<V>(o: Entries<V>): (r: seq<V>)
    ensures |r| == |o| && forall i :: 0 <= i < |o| ==> r[i] == o[i].1
  {
    if o == [] then [] else [o[0].1] + Values(o[1..])
  }

  /** `o[k]` or `map.get(k)`, `None` standing for `undefined`. */
  function Get<V>(o: Entries<V>, k: string): (r: Option<V>)
    ensures r.None? <==> k !in Keys(o)
    ensures r.Some? ==> (k, r.value) in o
  {
    if o == [] then None else if o[0].0 == k then Some(o[0].1) else Get(o[1..], k)
  }

  /** `o[k] = v` or `map.set(k, v)`. */
  function Assign<V>(o: Entries<V>, k: string, v: V): (r: Entries<V>)
    ensures Keys(r) == if k in Keys(o) then Keys(o) else Keys(o) + [k]
    ensures Get(r, k) == Some(v)
    ensures forall k' :: k' != k ==> Get(r, k') == Get(o, k')
  {
    if o == [] then [(k, v)]
    else if o[0].0 == k then [(k, v)] + o[1..]
    else [o[0]] + Assign(o[1..], k, v)
  }

  predicate DistinctKeys<V>(o: Entries<V>) {
    forall i, j :: 0 <= i < j < |o| ==> o[i].0 != o[j].0
  }

  /** Setting a key never makes a key appear twice: one entry per key, and the latest value wins. */
  lemma AssignKeepsDistinct<V>(o: Entries<V>, k: string, v: V)
    requires DistinctKeys(o)
    ensures DistinctKeys(Assign(o, k, v))
    ensures |Assign(o, k, v)| == if k in Keys(o) then |o| else |o| + 1
  {
    var r := Assign(o, k, v);
    assert Keys(r) == if k in Keys(o) then Keys(o) else Keys(o) + [k];
    forall i, j | 0 <= i < j < |r| ensures r[i].0 != r[j].0 {
      assert r[i].0 == Keys(r)[i] && r[j].0 == Keys(r)[j];
      if j < |o| {
        assert Keys(r)[i] == Keys(o)[i] && Keys(r)[j] == Keys(o)[j];
      } else {
        assert k !in Keys(o) && Keys(r)[j] == k;
        assert Keys(o)[i] in Keys(o);
      }
    }
  }
}
