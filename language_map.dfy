/**
 * The `languages` entry of the dialogue's data: a Python dict from a specialty to the list of
 * languages chosen for it, kept in insertion order as Python dicts are.
 */
module LanguageMap {
  import opened Lists

  type Entries = seq<(string, seq<string>)>

  function Keys(m: Entries): (ks: seq<string>)
    ensures |ks| == |m|
    ensures forall i :: 0 <= i < |m| ==> ks[i] == m[i].0
  {
    if m == [] then [] else [m[0].0] + Keys(m[1..])
  }

  /** `m.get(k, [])`: the list stored under the first entry with key `k`. */
  function Get(m: Entries, k: string): seq<string> {
    if m == [] then [] else if m[0].0 == k then m[0].1 else Get(m[1..], k)
  }

  /** Every stored list holds at least one language. */
  predicate AllNonEmpty(m: Entries) {
    forall i :: 0 <= i < |m| ==> |m[i].1| > 0
  }

  /** `m.setdefault(k, []).append(v)`: a new key goes last; an existing key keeps its place. */
  function SetDefaultAppend(m: Entries, k: string, v: string): (r: Entries)
    ensures Keys(r) == if k in Keys(m) then Keys(m) else Keys(m) + [k]
    ensures Get(r, k) == Get(m, k) + [v]
    ensures forall k' :: k' != k ==> Get(r, k') == Get(m, k')
    ensures AllNonEmpty(m) ==> AllNonEmpty(r)
    ensures Distinct(Keys(m)) ==> Distinct(Keys(r))
  {
    if m == [] then [(k, [v])]
    else if m[0].0 == k then [(k, m[0].1 + [v])] + m[1..]
    else
      var r := [m[0]] + SetDefaultAppend(m[1..], k, v);
      assert Keys(m) == [m[0].0] + Keys(m[1..]);
      assert Keys(r) == [m[0].0] + Keys(r[1..]);
      r
  }
}
