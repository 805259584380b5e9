/**
 * The abstract value of a ring: key/item pairs with unique keys, oldest first.
 * `ZRing` implements it with a hash and a linked list; the request-id tracker
 * reasons about it directly.
 */
module OrderedMap {
  import opened Options

  type Entries<V> = seq<(string, V)>

  ghost predicate UniqueKeys<V>(es: Entries<V>) {
    forall i, j :: 0 <= i < j < |es| ==> es[i].0 != es[j].0
  }

  function Find<V>(es: Entries<V>, key: string): (item: Option<V>) {
    if es == [] then None
    else if es[0].0 == key then Some(es[0].1)
    else Find(es[1..], key)
  }

  ghost predicate Has<V>(es: Entries<V>, key: string) {
    Find(es, key).Some?
  }

  /** The entries without `key`, in the same order. */
  function Drop<V>(es: Entries<V>, key: string): (rest: Entries<V>) {
    if es == [] then []
    else if es[0].0 == key then es[1..]
    else [es[0]] + Drop(es[1..], key)
  }

  /** Lookup means membership: an entry is found exactly at its own index. */
  lemma {:induction false} FindIsMembership<V>(es: Entries<V>, key: string)
    ensures Has(es, key) <==> exists i :: 0 <= i < |es| && es[i].0 == key
    ensures UniqueKeys(es) ==> forall i :: 0 <= i < |es| && es[i].0 == key ==> Find(es, key) == Some(es[i].1)
  {
    if es != [] && es[0].0 != key {
      FindIsMembership(es[1..], key);
      assert forall i :: 1 <= i < |es| ==> es[i] == es[1..][i-1];
    }
  }

  lemma {:induction false} FindAppend<V>(es: Entries<V>, key: string, item: V, other: string)
    ensures Find(es + [(key, item)], other) ==
            if Has(es, other) then Find(es, other) else if other == key then Some(item) else None
  {
    if es != [] {
      assert (es + [(key, item)])[1..] == es[1..] + [(key, item)];
      FindAppend(es[1..], key, item, other);
    }
  }

  lemma UniqueAppend<V>(es: Entries<V>, key: string, item: V)
    requires UniqueKeys(es) && !Has(es, key)
    ensures UniqueKeys(es + [(key, item)])
  {
    FindIsMembership(es, key);
  }

  lemma FindTail<V>(es: Entries<V>, key: string)
    requires UniqueKeys(es) && es != []
    ensures UniqueKeys(es[1..])
    ensures Find(es[1..], key) == if key == es[0].0 then None else Find(es, key)
  {
    FindIsMembership(es[1..], key);
  }

  /** `Drop` removes one entry and keeps the order of the others. */
  lemma {:induction false} DropAt<V>(es: Entries<V>, i: nat)
    requires UniqueKeys(es) && i < |es|
    ensures Drop(es, es[i].0) == es[..i] + es[i+1..]
  {
    if i > 0 {
      DropAt(es[1..], i - 1);
      assert es[..i] + es[i+1..] == [es[0]] + (es[1..][..i-1] + es[1..][i..]);
    }
  }

  lemma {:induction false} DropAbsent<V>(es: Entries<V>, key: string)
    requires !Has(es, key)
    ensures Drop(es, key) == es
  {
    if es != [] {
      DropAbsent(es[1..], key);
    }
  }

  lemma UniqueCons<V>(e: (string, V), es: Entries<V>)
    requires UniqueKeys(es) && !Has(es, e.0)
    ensures UniqueKeys([e] + es)
  {
    FindIsMembership(es, e.0);
  }

  lemma {:induction false} FindDrop<V>(es: Entries<V>, key: string, other: string)
    requires UniqueKeys(es)
    ensures Find(Drop(es, key), other) == if other == key then None else Find(es, other)
    ensures UniqueKeys(Drop(es, key))
    ensures |Drop(es, key)| == if Has(es, key) then |es| - 1 else |es|
  {
    if es != [] {
      FindTail(es, other);
      if es[0].0 != key {
        FindDrop(es[1..], key, other);
        FindTail(es, es[0].0);
        FindDrop(es[1..], key, es[0].0);
        UniqueCons(es[0], Drop(es[1..], key));
        assert ([es[0]] + Drop(es[1..], key))[1..] == Drop(es[1..], key);
      }
    }
  }
}
