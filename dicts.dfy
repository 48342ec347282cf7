/**
 * Python dicts whose insertion order matters, as a sequence of (key, value) pairs with
 * distinct keys.  `Put` is `d[k] = v`: an existing key keeps its place, a new key goes last.
 */
module Dicts {
  import opened Wrappers

  type Dict<V> = seq<(string, V)>

  function Keys<V>(d: Dict<V>): (ks: seq<string>)
    ensures |ks| == |d|
    ensures forall i :: 0 <= i < |d| ==> ks[i] == d[i].0
  {
    seq(|d|, i requires 0 <= i < |d| => d[i].0)
  }

  predicate UniqueKeys<V>(d: Dict<V>) {
    forall i, j :: 0 <= i < j < |d| ==> d[i].0 != d[j].0
  }

  /** The first position of `k` in `ks`. */
  function IndexIn(ks: seq<string>, k: string): (r: Option<nat>)
    ensures r.Some? ==> r.value < |ks| && ks[r.value] == k
    ensures r.Some? ==> forall j :: 0 <= j < r.value ==> ks[j] != k
    ensures r.None? <==> k !in ks
  {
    if ks == [] then None
    else if ks[0] == k then Some(0)
    else match IndexIn(ks[1..], k)
      case None => None
      case Some(i) => Some(i + 1)
  }

  /** Where `k` sits in `d`. */
  function KeyIndex<V>(d: Dict<V>, k: string): (r: Option<nat>)
    ensures r.Some? ==> r.value < |d| && d[r.value].0 == k
    ensures r.Some? ==> forall j :: 0 <= j < r.value ==> d[j].0 != k
    ensures r.None? <==> k !in Keys(d)
  {
    var r := IndexIn(Keys(d), k);
    assert r.Some? ==> Keys(d)[r.value] == d[r.value].0;
    r
  }

  /** `d.get(k)`. */
  function Lookup<V>(d: Dict<V>, k: string): (r: Option<V>)
    ensures r.None? <==> k !in Keys(d)
    ensures r.Some? ==> (k, r.value) in d
  {
    match KeyIndex(d, k)
    case None => None
    case Some(i) => Some(d[i].1)
  }

  /** `d[k] = v`. */
  function Put<V>(d: Dict<V>, k: string, v: V): (r: Dict<V>)
    ensures Keys(r) == if k in Keys(d) then Keys(d) else Keys(d) + [k]
    ensures UniqueKeys(d) ==> UniqueKeys(r)
  {
    match KeyIndex(d, k)
    case Some(i) =>
      var r := d[i := (k, v)];
      assert Keys(r) == Keys(d);
      r
    case None =>
      var r := d + [(k, v)];
      assert Keys(r) == Keys(d) + [k];
      assert forall j :: 0 <= j < |d| ==> Keys(d)[j] != k;
      r
  }

  /** Two dicts with the same keys find every key at the same place. */
  lemma SameKeysSameIndex<V, W>(d: Dict<V>, e: Dict<W>, k: string)
    requires Keys(d) == Keys(e)
    ensures KeyIndex(d, k) == KeyIndex(e, k)
  {
  }

  /** A key already in a dict is found where it was after another key is appended. */
  lemma AppendKeepsIndex<V>(d: Dict<V>, k: string, v: V, k': string)
    requires k' != k
    ensures KeyIndex(d + [(k, v)], k') == KeyIndex(d, k')
  {
    var e := d + [(k, v)];
    assert Keys(e) == Keys(d) + [k];
    match KeyIndex(e, k')
    case Some(i) =>
      assert i < |d| && e[i] == d[i];
      assert forall j :: 0 <= j < i ==> e[j] == d[j];
    case None =>
      assert forall j :: 0 <= j < |d| ==> Keys(e)[j] == Keys(d)[j];
  }

  /** After `d[k] = v`, `k` holds `v` and every other key holds what it held. */
  lemma PutLookup<V>(d: Dict<V>, k: string, v: V, k': string)
    ensures Lookup(Put(d, k, v), k') == if k' == k then Some(v) else Lookup(d, k')
  {
    var r := Put(d, k, v);
    match KeyIndex(d, k)
    case Some(i) =>
      SameKeysSameIndex(r, d, k');
      assert r[i] == (k, v);
    case None =>
      assert r == d + [(k, v)];
      if k' == k {
        assert KeyIndex(r, k) == Some(|d|) by {
          assert forall j :: 0 <= j < |d| ==> r[j].0 == Keys(d)[j];
        }
      } else {
        AppendKeepsIndex(d, k, v, k');
        assert forall j :: 0 <= j < |d| ==> r[j] == d[j];
      }
  }

  /** Storing a key the dict does not hold appends the pair at the end. */
  lemma PutNew<V>(d: Dict<V>, k: string, v: V)
    requires k !in Keys(d)
    ensures Put(d, k, v) == d + [(k, v)]
  {
  }
}
