/** A Python `dict` with string keys, as JSON stores it: an insertion-ordered
    list of (key, value) pairs with distinct keys. Assigning to an existing key
    keeps its position; assigning to a new key appends it; `del` removes the
    pair and keeps the order of the rest. */
module Dict {
  import opened Wrappers

  type Dict<V> = seq<(string, V)>

  function Keys<V>(d: Dict<V>): (ks: seq<string>)
    ensures |ks| == |d|
    ensures forall i | 0 <= i < |d| :: ks[i] == d[i].0
  {
    seq(|d|, i requires 0 <= i < |d| => d[i].0)
  }

  function Values<V>(d: Dict<V>): (vs: seq<V>)
    ensures |vs| == |d|
    ensures forall i | 0 <= i < |d| :: vs[i] == d[i].1
  {
    seq(|d|, i requires 0 <= i < |d| => d[i].1)
  }

  /** No key occurs twice: the list is a dictionary. */
  predicate IsDict<V>(d: Dict<V>) {
    forall i, j | 0 <= i < j < |d| :: d[i].0 != d[j].0
  }

  /** The position of key `k`, if present: the first pair holding it. */
  function Find<V>(d: Dict<V>, k: string): (r: Option<nat>)
    ensures r.Some? ==> r.value < |d| && d[r.value].0 == k
    ensures r.Some? ==> forall j | 0 <= j < r.value :: d[j].0 != k
    ensures r.None? <==> forall j | 0 <= j < |d| :: d[j].0 != k
  {
    if d == [] then None
    else if d[0].0 == k then Some(0)
    else match Find(d[1..], k)
      case None => None
      case Some(i) => Some(i + 1)
  }

  predicate Contains<V>(d: Dict<V>, k: string) {
    Find(d, k).Some?
  }

  /** `d[k]`, or `None` when `k not in d`. */
  function Get<V>(d: Dict<V>, k: string): Option<V> {
    match Find(d, k)
    case None => None
    case Some(i) => Some(d[i].1)
  }

  /** `Find` returns the first position holding the key. */
  lemma FindFirst<V>(d: Dict<V>, k: string, i: nat)
    requires i < |d| && d[i].0 == k
    requires forall j | 0 <= j < i :: d[j].0 != k
    ensures Find(d, k) == Some(i)
  {
  }

  /** `d[k] = v`. */
  function Put<V>(d: Dict<V>, k: string, v: V): Dict<V> {
    match Find(d, k)
    case Some(i) => d[i := (k, v)]
    case None => d + [(k, v)]
  }

  /** A one-pair dictionary holds its value under its key and nothing else. */
  lemma SingleGet<V>(k: string, v: V, k': string)
    ensures Get([(k, v)], k') == if k' == k then Some(v) else None
  {
    if k' != k { assert Find([(k, v)][1..], k') == None; }
  }

  /** After `d[k] = v`, `d[k]` is `v` and every other key keeps its value. */
  lemma PutGet<V>(d: Dict<V>, k: string, v: V)
    ensures Get(Put(d, k, v), k) == Some(v)
    ensures forall k' | k' != k :: Get(Put(d, k, v), k') == Get(d, k')
  {
    var r := Put(d, k, v);
    match Find(d, k) {
      case Some(i) => FindFirst(r, k, i);
      case None => FindFirst(r, k, |d|);
    }
    forall k' | k' != k ensures Get(r, k') == Get(d, k') {
      assert forall j | 0 <= j < |d| :: r[j].0 == k' <==> d[j].0 == k';
      match Find(d, k')
      case None =>
        assert Find(r, k').None?;
      case Some(i) =>
        FindFirst(r, k', i);
    }
  }

  /** `d[k] = v` keeps the keys distinct, keeps every key's place, and
      appends a key that was not there. */
  lemma PutShape<V>(d: Dict<V>, k: string, v: V)
    requires IsDict(d)
    ensures IsDict(Put(d, k, v))
    ensures Contains(d, k) ==> Keys(Put(d, k, v)) == Keys(d)
    ensures !Contains(d, k) ==> Keys(Put(d, k, v)) == Keys(d) + [k]
  {
  }

  /** `del d[k]` for a key that is present. */
  function Remove<V>(d: Dict<V>, k: string): Dict<V>
    requires Contains(d, k)
  {
    var i := Find(d, k).value;
    d[..i] + d[i + 1..]
  }

  /** Looking up another key in `d` without its pair at `i`. */
  lemma RemoveAtGet<V>(d: Dict<V>, i: nat, k': string)
    requires i < |d| && d[i].0 != k'
    ensures Get(d[..i] + d[i + 1..], k') == Get(d, k')
  {
    var r := d[..i] + d[i + 1..];
    assert forall j | 0 <= j < |r| :: r[j] == if j < i then d[j] else d[j + 1];
    match Find(d, k')
    case None =>
      assert Find(r, k').None?;
    case Some(m) =>
      if m < i {
        FindFirst(r, k', m);
      } else {
        FindFirst(r, k', m - 1);
      }
  }

  /** After `del d[k]`, `k` is gone, every other key keeps its value, and the
      remaining values keep their order. */
  lemma RemoveGet<V>(d: Dict<V>, k: string)
    requires IsDict(d) && Contains(d, k)
    ensures IsDict(Remove(d, k))
    ensures Get(Remove(d, k), k) == None
    ensures forall k' | k' != k :: Get(Remove(d, k), k') == Get(d, k')
    ensures var i := Find(d, k).value;
      Values(Remove(d, k)) == Values(d)[..i] + Values(d)[i + 1..]
  {
    var i := Find(d, k).value;
    var r := Remove(d, k);
    assert r == d[..i] + d[i + 1..];
    forall k' | k' != k ensures Get(r, k') == Get(d, k') {
      RemoveAtGet(d, i, k');
    }
  }
}
