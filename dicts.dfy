/**
 * Python's insertion-ordered `dict`, as a sequence of key/value pairs:
 * `d[k] = v` keeps an existing key in its place and appends a new one,
 * `a | b` and `{k: v for d in ds for k, v in d.items()}` are folds of it,
 * and `dict(sorted(d.items()))` orders the pairs by key.
 */
module Dicts {
  import opened Wrappers
  import opened Strings

  type Dict<V> = seq<(string, V)>

  /** `list(d.keys())`. */
  function Keys<V>(d: Dict<V>): (ks: seq<string>)
    ensures |ks| == |d|
    ensures forall i :: 0 <= i < |d| ==> ks[i] == d[i].0
  {
    if d == [] then [] else [d[0].0] + Keys(d[1..])
  }

  predicate Distinct(ks: seq<string>) {
    forall i, j :: 0 <= i < j < |ks| ==> ks[i] != ks[j]
  }

  /** `d.get(k)`. */
  function Get<V>(d: Dict<V>, k: string): (r: Option<V>)
    ensures r.Some? <==> k in Keys(d)
  {
    if d == [] then None
    else if d[0].0 == k then Some(d[0].1)
    else
      assert Keys(d) == [d[0].0] + Keys(d[1..]);
      Get(d[1..], k)
  }

  /** `d[k] = v`: an existing key keeps its place, a new key goes last. */
  function Insert<V>(d: Dict<V>, k: string, v: V): (r: Dict<V>)
    ensures Keys(r) == if k in Keys(d) then Keys(d) else Keys(d) + [k]
  {
    if d == [] then [(k, v)]
    else if d[0].0 == k then
      assert Keys(d) == [d[0].0] + Keys(d[1..]);
      [(k, v)] + d[1..]
    else
      assert Keys(d) == [d[0].0] + Keys(d[1..]);
      var r := [d[0]] + Insert(d[1..], k, v);
      assert r[1..] == Insert(d[1..], k, v);
      r
  }

  lemma {:induction false} InsertGet<V>(d: Dict<V>, k: string, v: V, k': string)
    ensures Get(Insert(d, k, v), k') == if k' == k then Some(v) else Get(d, k')
  {
    if d != [] && d[0].0 != k {
      InsertGet(d[1..], k, v, k');
      assert Insert(d, k, v)[1..] == Insert(d[1..], k, v);
    }
  }

  /** `d[k] = v` with a key `d` does not hold appends the pair. */
  lemma {:induction false} InsertNew<V>(d: Dict<V>, k: string, v: V)
    requires k !in Keys(d)
    ensures Insert(d, k, v) == d + [(k, v)]
  {
    if d != [] {
      assert Keys(d) == [d[0].0] + Keys(d[1..]);
      InsertNew(d[1..], k, v);
    }
  }

  /** Building a dict with distinct keys one `d[k] = v` at a time appends its pairs in order. */
  lemma {:induction false} InsertNextPair<V>(all: Dict<V>, i: nat)
    requires Distinct(Keys(all)) && i < |all|
    ensures Insert(all[..i], all[i].0, all[i].1) == all[..i + 1]
  {
    NextKeyIsNew(all, i);
    InsertNew(all[..i], all[i].0, all[i].1);
    SliceGrows(all, i);
  }

  lemma {:induction false} SliceGrows<T>(s: seq<T>, i: nat)
    requires i < |s|
    ensures s[..i + 1] == s[..i] + [s[i]]
  {
  }

  lemma {:induction false} NextKeyIsNew<V>(all: Dict<V>, i: nat)
    requires Distinct(Keys(all)) && i < |all|
    ensures all[i].0 !in Keys(all[..i])
  {
    var ks := Keys(all);
    var prefix := Keys(all[..i]);
    forall k | 0 <= k < i ensures prefix[k] != all[i].0 {
      assert prefix[k] == all[..i][k].0 == all[k].0 == ks[k];
      assert ks[k] != ks[i];
    }
  }

  /** With distinct keys, `d[k]` is the value stored next to `k`. */
  lemma {:induction false} GetAt<V>(d: Dict<V>, i: nat)
    requires Distinct(Keys(d)) && i < |d|
    ensures Get(d, d[i].0) == Some(d[i].1)
  {
    if i > 0 {
      assert Keys(d)[0] != Keys(d)[i];
      assert Keys(d[1..]) == Keys(d)[1..];
      GetAt(d[1..], i - 1);
    }
  }

  /** `a | b`: `a`'s keys first, in their order; a key of `b` takes `b`'s value. */
  function Union<V>(a: Dict<V>, b: Dict<V>): Dict<V>
    decreases |b|
  {
    if b == [] then a else Union(Insert(a, b[0].0, b[0].1), b[1..])
  }

  lemma {:induction false} UnionKeys<V>(a: Dict<V>, b: Dict<V>)
    ensures |a| <= |Union(a, b)| && Keys(Union(a, b))[..|a|] == Keys(a)
    ensures forall k :: k in Keys(Union(a, b)) <==> k in Keys(a) || k in Keys(b)
    decreases |b|
  {
    if b != [] {
      var a' := Insert(a, b[0].0, b[0].1);
      assert Keys(b) == [b[0].0] + Keys(b[1..]);
      UnionKeys(a', b[1..]);
      var u := Keys(Union(a, b));
      assert Keys(a')[..|a|] == Keys(a);
      assert u[..|a'|] == Keys(a');
      assert u[..|a|] == u[..|a'|][..|a|];
    }
  }

  lemma {:induction false} UnionDistinct<V>(a: Dict<V>, b: Dict<V>)
    requires Distinct(Keys(a))
    ensures Distinct(Keys(Union(a, b)))
    decreases |b|
  {
    if b != [] {
      var a' := Insert(a, b[0].0, b[0].1);
      assert Distinct(Keys(a'));
      UnionDistinct(a', b[1..]);
    }
  }

  lemma {:induction false} UnionGet<V>(a: Dict<V>, b: Dict<V>, k: string)
    requires Distinct(Keys(b))
    ensures Get(Union(a, b), k) == if k in Keys(b) then Get(b, k) else Get(a, k)
    decreases |b|
  {
    if b != [] {
      assert Keys(b) == [b[0].0] + Keys(b[1..]);
      assert Keys(b[1..]) == Keys(b)[1..];
      UnionGet(Insert(a, b[0].0, b[0].1), b[1..], k);
      InsertGet(a, b[0].0, b[0].1, k);
    }
  }

  /** `{k: v for d in ds for k, v in d.items()}`. */
  function Flatten<V>(ds: seq<Dict<V>>): (r: Dict<V>)
    ensures Distinct(Keys(r))
    ensures forall k :: k in Keys(r) <==> exists i :: 0 <= i < |ds| && k in Keys(ds[i])
  {
    if ds == [] then []
    else
      var prefix := Flatten(ds[..|ds| - 1]);
      assert forall i :: 0 <= i < |ds| - 1 ==> ds[..|ds| - 1][i] == ds[i];
      UnionKeys(prefix, ds[|ds| - 1]);
      UnionDistinct(prefix, ds[|ds| - 1]);
      Union(prefix, ds[|ds| - 1])
  }

  /** In a flattened list of dicts the last dict that has a key decides its value. */
  lemma {:induction false} FlattenLaterWins<V>(ds: seq<Dict<V>>, d: Dict<V>, k: string)
    requires Distinct(Keys(d))
    ensures Get(Flatten(ds + [d]), k) == if k in Keys(d) then Get(d, k) else Get(Flatten(ds), k)
  {
    assert (ds + [d])[..|ds|] == ds;
    UnionGet(Flatten(ds), d, k);
  }

  /** The pairs are in strictly ascending key order. */
  predicate SortedByKey<V>(d: Dict<V>) {
    forall i, j :: 0 <= i < j < |d| ==> StrLess(d[i].0, d[j].0)
  }

  /** Insertion of one pair into a sorted dict whose keys all differ from its key. */
  function InsertByKey<V>(x: (string, V), d: Dict<V>): (r: Dict<V>)
    requires SortedByKey(d)
    requires forall i :: 0 <= i < |d| ==> d[i].0 != x.0
    ensures SortedByKey(r)
    ensures multiset(r) == multiset(d) + multiset{x}
  {
    if d == [] then [x]
    else if StrLess(x.0, d[0].0) then
      InsertFrontSorted(x, d);
      [x] + d
    else
      var tail := InsertByKey(x, d[1..]);
      InsertAfterHeadSorted(x, d, tail);
      assert d == [d[0]] + d[1..];
      [d[0]] + tail
  }

  lemma {:induction false} InsertFrontSorted<V>(x: (string, V), d: Dict<V>)
    requires SortedByKey(d) && d != [] && StrLess(x.0, d[0].0)
    ensures SortedByKey([x] + d)
  {
    forall j | 0 < j < |d| ensures StrLess(x.0, d[j].0) {
      StrLessTransitive(x.0, d[0].0, d[j].0);
    }
  }

  lemma {:induction false} InsertAfterHeadSorted<V>(x: (string, V), d: Dict<V>, tail: Dict<V>)
    requires SortedByKey(d) && d != [] && !StrLess(x.0, d[0].0) && x.0 != d[0].0
    requires SortedByKey(tail) && multiset(tail) == multiset(d[1..]) + multiset{x}
    ensures SortedByKey([d[0]] + tail)
  {
    StrLessTotal(x.0, d[0].0);
    MultisetMembers(tail, d[1..] + [x]);
    forall j | 0 <= j < |tail| ensures StrLess(d[0].0, tail[j].0) {
      assert tail[j] in d[1..] + [x];
    }
  }

  lemma {:induction false} MultisetMembers<T>(a: seq<T>, b: seq<T>)
    requires multiset(a) == multiset(b)
    ensures forall p :: p in a ==> p in b
  {
    forall p | p in a ensures p in b {
      assert p in multiset(a);
    }
  }

  /** `dict(sorted(d.items()))` for a dict (distinct keys): the same pairs, by ascending key. */
  function SortByKey<V>(d: Dict<V>): (r: Dict<V>)
    requires Distinct(Keys(d))
    ensures SortedByKey(r)
    ensures multiset(r) == multiset(d)
  {
    if d == [] then []
    else
      TailDistinct(d);
      var rest := SortByKey(d[1..]);
      HeadKeyFresh(d, rest);
      assert [d[0]] + d[1..] == d;
      InsertByKey(d[0], rest)
  }

  lemma {:induction false} TailDistinct<V>(d: Dict<V>)
    requires Distinct(Keys(d)) && d != []
    ensures Distinct(Keys(d[1..]))
  {
    var ks, ts := Keys(d), Keys(d[1..]);
    forall i, j | 0 <= i < j < |ts| ensures ts[i] != ts[j] {
      assert ts[i] == ks[i + 1] && ts[j] == ks[j + 1];
    }
  }

  /** A permutation of the tail of a dict holds no pair with the head's key. */
  lemma {:induction false} HeadKeyFresh<V>(d: Dict<V>, rest: Dict<V>)
    requires Distinct(Keys(d)) && d != [] && multiset(rest) == multiset(d[1..])
    ensures forall i :: 0 <= i < |rest| ==> rest[i].0 != d[0].0
  {
    MultisetMembers(rest, d[1..]);
    forall i | 0 <= i < |rest| ensures rest[i].0 != d[0].0 {
      assert rest[i] in d[1..];
      var k :| 0 <= k < |d[1..]| && d[1..][k] == rest[i];
      assert Keys(d)[k + 1] == rest[i].0 && Keys(d)[0] == d[0].0;
    }
  }
}
