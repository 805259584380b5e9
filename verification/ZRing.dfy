/**
 * zring: a hash of handles plus a linked list of nodes, kept in agreement so
 * that together they behave as an insertion-ordered map.
 */
module ZRing {
  import opened Options
  import opened OrderedMap

  /** A list node; its reference is the handle that the hash stores. */
  class Node<V> {
    const key: string
    const item: V

    constructor (key: string, item: V)
      ensures this.key == key && this.item == item
    {
      this.key := key;
      this.item := item;
    }
  }

  ghost function Pairs<V>(list: seq<Node<V>>): (es: Entries<V>)
    ensures |es| == |list|
    ensures forall i :: 0 <= i < |list| ==> es[i] == (list[i].key, list[i].item)
  {
    seq(|list|, i requires 0 <= i < |list| => (list[i].key, list[i].item))
  }

  /** zlistx_delete: the list without the node at one position. */
  function Without<V>(list: seq<Node<V>>, i: nat): (rest: seq<Node<V>>)
    requires i < |list|
    ensures |rest| == |list| - 1
    ensures forall j :: 0 <= j < |rest| ==> rest[j] == list[if j < i then j else j + 1]
    ensures forall n :: n in list && n != list[i] ==> n in rest
  {
    var rest := list[..i] + list[i+1..];
    assert forall j :: 0 <= j < |list| && j != i ==> list[j] == rest[if j < i then j else j - 1];
    rest
  }

  /** Hash handles and list nodes are in bijection. */
  ghost predicate Agree<V>(hash: map<string, Node<V>>, list: seq<Node<V>>) {
    && (forall i, j :: 0 <= i < j < |list| ==> list[i].key != list[j].key)
    && (forall i :: 0 <= i < |list| ==> list[i].key in hash && hash[list[i].key] == list[i])
    && (forall k :: k in hash ==> hash[k] in list && hash[k].key == k)
  }

  /** The same bijection built node by node, together with the ring's abstract value. */
  ghost predicate Linked<V>(hash: map<string, Node<V>>, list: seq<Node<V>>, contents: Entries<V>)
    decreases |list|
  {
    if list == [] then hash == map[] && contents == []
    else
      var n := |list| - 1;
      var node := list[n];
      && |contents| == n + 1 && contents[n] == (node.key, node.item)
      && node.key in hash && hash[node.key] == node
      && Linked(hash - {node.key}, list[..n], contents[..n])
  }

  lemma {:induction false} LinkedAgrees<V>(hash: map<string, Node<V>>, list: seq<Node<V>>, contents: Entries<V>)
    requires Linked(hash, list, contents)
    ensures Agree(hash, list)
    decreases |list|
  {
    if list != [] {
      var n := |list| - 1;
      var h, init := hash - {list[n].key}, list[..n];
      LinkedAgrees(h, init, contents[..n]);
      AgreeSnoc(h, init, list[n]);
      assert init + [list[n]] == list;
      assert h[list[n].key := list[n]] == hash;
    }
  }

  lemma {:induction false} LinkedPairs<V>(hash: map<string, Node<V>>, list: seq<Node<V>>, contents: Entries<V>)
    requires Linked(hash, list, contents)
    ensures contents == Pairs(list) && |hash| == |list|
    decreases |list|
  {
    if list != [] {
      var n := |list| - 1;
      LinkedPairs(hash - {list[n].key}, list[..n], contents[..n]);
      assert contents == contents[..n] + [contents[n]];
      assert Pairs(list) == Pairs(list[..n]) + [contents[n]];
      assert |hash| == |hash - {list[n].key}| + 1;
    }
  }

  lemma AgreeSnoc<V>(hash: map<string, Node<V>>, list: seq<Node<V>>, node: Node<V>)
    requires Agree(hash, list) && node.key !in hash
    ensures Agree(hash[node.key := node], list + [node])
  {
  }

  lemma {:induction false} AgreeLinks<V>(hash: map<string, Node<V>>, list: seq<Node<V>>)
    requires Agree(hash, list)
    ensures Linked(hash, list, Pairs(list))
    decreases |list|
  {
    if list == [] {
      assert forall k :: k in hash ==> hash[k] in list;
    } else {
      var n := |list| - 1;
      assert list[..n] == Without(list, n);
      AgreeWithout(hash, list, n);
      AgreeLinks(hash - {list[n].key}, list[..n]);
      assert Pairs(list)[..n] == Pairs(list[..n]);
    }
  }

  lemma AgreeWithout<V>(hash: map<string, Node<V>>, list: seq<Node<V>>, i: nat)
    requires Agree(hash, list) && i < |list|
    ensures Agree(hash - {list[i].key}, Without(list, i))
  {
    var h, rest := hash - {list[i].key}, Without(list, i);
    forall j | 0 <= j < |rest| ensures rest[j].key in h && h[rest[j].key] == rest[j] {
      assert rest[j] == list[if j < i then j else j + 1];
    }
    forall j, k | 0 <= j < k < |rest| ensures rest[j].key != rest[k].key {
      assert rest[j] == list[if j < i then j else j + 1];
      assert rest[k] == list[if k < i then k else k + 1];
    }
    forall k | k in h ensures h[k] in rest && h[k].key == k {
      assert hash[k] in list && hash[k] != list[i];
    }
  }

  lemma PairsWithout<V>(list: seq<Node<V>>, i: nat)
    requires UniqueKeys(Pairs(list)) && i < |list|
    ensures Pairs(Without(list, i)) == Drop(Pairs(list), list[i].key)
  {
    DropAt(Pairs(list), i);
    assert Pairs(Without(list, i)) == Pairs(list)[..i] + Pairs(list)[i+1..];
  }

  lemma UnlinkKeeps<V>(hash: map<string, Node<V>>, list: seq<Node<V>>, contents: Entries<V>, i: nat)
    requires Linked(hash, list, contents) && i < |list|
    ensures Linked(hash - {list[i].key}, Without(list, i), Drop(contents, list[i].key))
  {
    LinkedAgrees(hash, list, contents);
    LinkedPairs(hash, list, contents);
    AgreeWithout(hash, list, i);
    AgreeLinks(hash - {list[i].key}, Without(list, i));
    PairsWithout(list, i);
  }

  class Ring<V> {
    var hash: map<string, Node<V>>
    var list: seq<Node<V>>
    ghost var contents: Entries<V>

    ghost predicate Valid()
      reads this
    {
      Linked(hash, list, contents)
    }

    lemma HashFinds(key: string)
      requires Valid()
      ensures Agree(hash, list) && contents == Pairs(list) && UniqueKeys(contents)
      ensures Find(contents, key) == if key in hash then Some(hash[key].item) else None
    {
      LinkedAgrees(hash, list, contents);
      LinkedPairs(hash, list, contents);
      FindIsMembership(contents, key);
    }

    constructor ()
      ensures Valid() && contents == []
    {
      hash := map[];
      list, contents := [], [];
    }

    /** Refuses a key that is present; otherwise the new entry is the youngest. */
    method Insert(key: string, item: V) returns (inserted: bool)
      requires Valid()
      modifies this
      ensures Valid()
      ensures inserted == !Has(old(contents), key)
      ensures contents == if inserted then old(contents) + [(key, item)] else old(contents)
    {
      HashFinds(key);
      if key in hash {
        return false;
      }
      var node := new Node(key, item);
      assert hash[key := node] - {key} == hash && (list + [node])[..|list|] == list;
      list := list + [node];
      hash, contents := hash[key := node], contents + [(key, item)];
      return true;
    }

    method Lookup(key: string) returns (item: Option<V>)
      requires Valid()
      ensures item == Find(contents, key)
    {
      HashFinds(key);
      if key in hash {
        item := Some(hash[key].item);
      } else {
        item := None;
      }
    }

    method Delete(key: string) returns (item: Option<V>)
      requires Valid()
      modifies this
      ensures Valid()
      ensures item == Find(old(contents), key)
      ensures contents == Drop(old(contents), key)
    {
      HashFinds(key);
      if key !in hash {
        DropAbsent(contents, key);
        return None;
      }
      var handle := hash[key];
      var i :| 0 <= i < |list| && list[i] == handle;
      UnlinkKeeps(hash, list, contents, i);
      hash, list, contents := hash - {key}, Without(list, i), Drop(contents, key);
      return Some(handle.item);
    }

    /** Removes the oldest entry. */
    method Shift() returns (item: Option<V>)
      requires Valid()
      modifies this
      ensures Valid()
      ensures old(contents) == [] ==> item == None && contents == []
      ensures old(contents) != [] ==>
                item == Some(old(contents)[0].1) && contents == old(contents)[1..]
    {
      HashFinds("");
      if list == [] {
        return None;
      }
      assert Drop(contents, list[0].key) == contents[1..];
      item := Delete(list[0].key);
    }

    method First() returns (item: Option<V>)
      requires Valid()
      ensures item == if contents == [] then None else Some(contents[0].1)
    {
      HashFinds("");
      item := if list == [] then None else Some(list[0].item);
    }

    method Size() returns (n: nat)
      requires Valid()
      ensures n == |contents|
    {
      n := |hash|;
      LinkedPairs(hash, list, contents);
    }
  }
}
