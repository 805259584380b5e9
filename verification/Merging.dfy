/**
 * Pointwise combination of optional values, arrays and hash tables. Every
 * table the importer merges is an instance of `Merge`, and everything that is
 * said about merging in any order follows from the laws proved here.
 */
module Merging {
  import opened Options

  ghost predicate Commutes<V(!new)>(f: (V, V) -> V) {
    forall x, y :: f(x, y) == f(y, x)
  }

  ghost predicate Associates<V(!new)>(f: (V, V) -> V) {
    forall x, y, z :: f(f(x, y), z) == f(x, f(y, z))
  }

  /** "Nothing stored yet" is the identity. */
  function Join<V>(f: (V, V) -> V, a: Option<V>, b: Option<V>): (r: Option<V>) {
    match (a, b)
    case (Some(x), Some(y)) => Some(f(x, y))
    case (Some(_), None) => a
    case _ => b
  }

  function At<K, V>(m: map<K, V>, k: K): (v: Option<V>) {
    if k in m then Some(m[k]) else None
  }

  /** Values under the same key are combined; other entries are kept. */
  function Merge<K(!new), V>(f: (V, V) -> V, a: map<K, V>, b: map<K, V>): (r: map<K, V>)
    ensures forall k :: At(r, k) == Join(f, At(a, k), At(b, k))
    ensures r.Keys == a.Keys + b.Keys
  {
    map k | k in a.Keys + b.Keys :: Join(f, At(a, k), At(b, k)).value
  }

  lemma SameMap<K(!new), V>(a: map<K, V>, b: map<K, V>)
    requires forall k :: At(a, k) == At(b, k)
    ensures a == b
  {
    assert forall k :: k in a <==> At(a, k).Some?;
    assert forall k :: k in b <==> At(b, k).Some?;
    assert forall k :: k in a ==> At(a, k) == Some(a[k]);
    assert forall k :: k in b ==> At(b, k) == Some(b[k]);
  }

  lemma MergeCommutes<K(!new), V(!new)>(f: (V, V) -> V, a: map<K, V>, b: map<K, V>)
    requires Commutes(f)
    ensures Merge(f, a, b) == Merge(f, b, a)
  {
    forall k ensures At(Merge(f, a, b), k) == At(Merge(f, b, a), k) {
      assert Join(f, At(a, k), At(b, k)) == Join(f, At(b, k), At(a, k));
    }
    SameMap(Merge(f, a, b), Merge(f, b, a));
  }

  lemma MergeAssociates<K(!new), V(!new)>(f: (V, V) -> V, a: map<K, V>, b: map<K, V>, c: map<K, V>)
    requires Associates(f)
    ensures Merge(f, Merge(f, a, b), c) == Merge(f, a, Merge(f, b, c))
  {
    var l, r := Merge(f, Merge(f, a, b), c), Merge(f, a, Merge(f, b, c));
    forall k ensures At(l, k) == At(r, k) {
      assert At(l, k) == Join(f, Join(f, At(a, k), At(b, k)), At(c, k));
      assert At(r, k) == Join(f, At(a, k), Join(f, At(b, k), At(c, k)));
    }
    SameMap(l, r);
  }

  lemma MergeEmpty<K(!new), V>(f: (V, V) -> V, a: map<K, V>)
    ensures Merge(f, a, map[]) == a && Merge(f, map[], a) == a
  {
  }

  /** Arrays are combined cell by cell; the importer only combines arrays of one length. */
  function Zip<T>(f: (T, T) -> T, a: seq<T>, b: seq<T>): (r: seq<T>)
    ensures |r| == if |a| < |b| then |b| else |a|
    ensures forall i :: 0 <= i < |r| ==> r[i] == if i >= |b| then a[i] else if i >= |a| then b[i] else f(a[i], b[i])
  {
    seq(if |a| < |b| then |b| else |a|, i requires 0 <= i < |a| || 0 <= i < |b| =>
      if i >= |b| then a[i] else if i >= |a| then b[i] else f(a[i], b[i]))
  }

  lemma ZipCommutes<T(!new)>(f: (T, T) -> T, a: seq<T>, b: seq<T>)
    requires Commutes(f)
    ensures Zip(f, a, b) == Zip(f, b, a)
  {
  }

  lemma ZipAssociates<T(!new)>(f: (T, T) -> T, a: seq<T>, b: seq<T>, c: seq<T>)
    requires Associates(f)
    ensures Zip(f, Zip(f, a, b), c) == Zip(f, a, Zip(f, b, c))
  {
  }

  // ----- adding entries one after the other

  /** Adds one value under a key, as the source does for every counter it keeps. */
  function AddAt<K, V>(f: (V, V) -> V, m: map<K, V>, k: K, v: V): (r: map<K, V>) {
    m[k := if k in m then f(m[k], v) else v]
  }

  function AddAll<K, V>(f: (V, V) -> V, m: map<K, V>, es: seq<(K, V)>): (r: map<K, V>)
    decreases |es|
  {
    if es == [] then m else AddAll(f, AddAt(f, m, es[0].0, es[0].1), es[1..])
  }

  lemma AddAtMerges<K(!new), V>(f: (V, V) -> V, m: map<K, V>, k: K, v: V)
    ensures AddAt(f, m, k, v) == Merge(f, m, map[k := v])
  {
  }

  /** Adding entries to a table is merging it with the table those entries make on their own. */
  lemma {:induction false} AddAllMerges<K(!new), V(!new)>(f: (V, V) -> V, m: map<K, V>, es: seq<(K, V)>)
    requires Associates(f)
    ensures AddAll(f, m, es) == Merge(f, m, AddAll(f, map[], es))
    decreases |es|
  {
    if es == [] {
      MergeEmpty(f, m);
    } else {
      var one: map<K, V> := map[es[0].0 := es[0].1];
      AddAtMerges(f, m, es[0].0, es[0].1);
      AddAllMerges(f, AddAt(f, m, es[0].0, es[0].1), es[1..]);
      AddAllMerges(f, one, es[1..]);
      MergeAssociates(f, m, one, AddAll(f, map[], es[1..]));
      assert AddAt(f, map[], es[0].0, es[0].1) == one;
    }
  }

  // ----- properties of all stored values

  ghost predicate AllValues<K, V>(m: map<K, V>, good: V -> bool) {
    forall k :: k in m ==> good(m[k])
  }

  ghost predicate Closed<V(!new)>(f: (V, V) -> V, good: V -> bool) {
    forall x, y :: good(x) && good(y) ==> good(f(x, y))
  }

  lemma {:induction false} AddAllKeeps<K(!new), V(!new)>(f: (V, V) -> V, m: map<K, V>, es: seq<(K, V)>, good: V -> bool)
    requires Closed(f, good) && AllValues(m, good)
    requires forall i :: 0 <= i < |es| ==> good(es[i].1)
    ensures AllValues(AddAll(f, m, es), good)
    decreases |es|
  {
    if es != [] {
      AddAllKeeps(f, AddAt(f, m, es[0].0, es[0].1), es[1..], good);
    }
  }

  ghost predicate DistinctKeys<K, V>(es: seq<(K, V)>) {
    forall i, j :: 0 <= i < j < |es| ==> es[i].0 != es[j].0
  }

  /** Entries under different keys are stored as they are. */
  lemma {:induction false} AddAllDistinct<K(!new), V>(f: (V, V) -> V, m: map<K, V>, es: seq<(K, V)>)
    requires DistinctKeys(es) && forall i :: 0 <= i < |es| ==> es[i].0 !in m
    ensures forall i :: 0 <= i < |es| ==> At(AddAll(f, m, es), es[i].0) == Some(es[i].1)
    ensures forall k :: k !in AddAll(f, m, es) || k in m || exists i :: 0 <= i < |es| && es[i].0 == k
    ensures forall k :: k in m ==> At(AddAll(f, m, es), k) == At(m, k)
    decreases |es|
  {
    if es != [] {
      var m' := AddAt(f, m, es[0].0, es[0].1);
      AddAllDistinct(f, m', es[1..]);
      var r := AddAll(f, m, es);
      assert At(m', es[0].0) == Some(es[0].1);
      assert r == AddAll(f, m', es[1..]);
      forall i | 1 <= i < |es| ensures At(r, es[i].0) == Some(es[i].1) {
        assert es[i] == es[1..][i-1];
      }
      forall k | k in r && k !in m ensures exists i :: 0 <= i < |es| && es[i].0 == k {
        if k !in m' {
          var i :| 0 <= i < |es[1..]| && es[1..][i].0 == k;
          assert es[i+1].0 == k;
        }
      }
      forall k | k in m ensures At(r, k) == At(m, k) {
        assert At(m', k) == At(m, k);
      }
    }
  }
}
