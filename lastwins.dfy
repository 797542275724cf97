/**
 * The later-wins merge of dictionaries that runs through the generator:
 * `d = {}; for m in ms: d.update(m)`.  A key ends up in the result iff some
 * map has it, and its value comes from the last map that has it.
 */
module LastWins {

  /** Successive `dict.update` of an empty dict with each map of `ms`, in order. */
  function Merge<K, V>(ms: seq<map<K, V>>): map<K, V>
  {
    if ms == [] then map[] else Merge(ms[..|ms| - 1]) + ms[|ms| - 1]
  }

  /** The index of the last map of `ms` that has the key `k`, or -1 when none has it. */
  function LastWith<K, V>(ms: seq<map<K, V>>, k: K): (i: int)
    ensures -1 <= i < |ms|
    ensures i >= 0 ==> k in ms[i]
    ensures forall j :: i < j < |ms| ==> k !in ms[j]
  {
    if ms == [] then -1
    else if k in ms[|ms| - 1] then |ms| - 1
    else LastWith(ms[..|ms| - 1], k)
  }

  /** The merge has `k` iff some map has it, with the value of the last map that has it. */
  lemma {:induction false} MergeAt<K, V>(ms: seq<map<K, V>>, k: K)
    ensures k in Merge(ms) <==> LastWith(ms, k) >= 0
    ensures k in Merge(ms) ==> Merge(ms)[k] == ms[LastWith(ms, k)][k]
  {
    if ms != [] {
      MergeAt(ms[..|ms| - 1], k);
    }
  }

  /** The keys of the merge are the union of the keys of the maps. */
  lemma {:induction false} MergeKeys<K, V>(ms: seq<map<K, V>>, k: K)
    ensures k in Merge(ms) <==> exists i :: 0 <= i < |ms| && k in ms[i]
  {
    MergeAt(ms, k);
    if k in Merge(ms) {
      assert k in ms[LastWith(ms, k)];
    }
  }

  /** Merging one more map is one more `update` of the merge so far. */
  lemma MergeAppend<K, V>(ms: seq<map<K, V>>, m: map<K, V>)
    ensures Merge(ms + [m]) == Merge(ms) + m
  {
    assert (ms + [m])[..|ms|] == ms;
  }

  /** Merging the first `i + 1` maps is one more `update` of the merge of the first `i`. */
  lemma MergeStep<K, V>(ms: seq<map<K, V>>, i: int)
    requires 0 <= i < |ms|
    ensures Merge(ms[..i + 1]) == Merge(ms[..i]) + ms[i]
  {
    assert ms[..i + 1][..i] == ms[..i];
  }

  /** `d.update({k: v})` is `d[k] = v`. */
  lemma UpdateIsMerge<K, V>(m: map<K, V>, k: K, v: V)
    ensures m + map[k := v] == m[k := v]
  {
  }
}
