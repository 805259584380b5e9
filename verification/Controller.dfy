/** The controller's tree reduction: pairs of tables go to the adders, whose replies come back in any order. */
module Controller {
  import opened ProcessorModel
  import Adder

  /** All tables put together. */
  function Combined(ts: seq<Table>): (t: Table) {
    if ts == [] then map[] else MergeTables(Combined(ts[..|ts|-1]), ts[|ts|-1])
  }

  lemma {:induction false} CombinedConcat(a: seq<Table>, b: seq<Table>)
    ensures Combined(a + b) == MergeTables(Combined(a), Combined(b))
    decreases |b|
  {
    if b == [] {
      assert a + b == a;
      MergeTablesLaws(Combined(a), map[], map[]);
    } else {
      var n := |b| - 1;
      assert (a + b)[..|a + b| - 1] == a + b[..n];
      CombinedConcat(a, b[..n]);
      MergeTablesLaws(Combined(a), Combined(b[..n]), b[n]);
    }
  }

  lemma CombinedOne(t: Table)
    ensures Combined([t]) == t
  {
    assert [t][..0] == [];
    MergeTablesLaws(t, map[], map[]);
  }

  /** Replacing the first two tables by their merge at the end changes nothing. */
  lemma CombinedPair(a: Table, b: Table, rest: seq<Table>)
    ensures Combined(rest + [MergeTables(b, a)]) == Combined([a, b] + rest)
  {
    CombinedOne(a);
    CombinedOne(b);
    CombinedOne(MergeTables(b, a));
    CombinedConcat([a], [b]);
    assert [a] + [b] == [a, b];
    CombinedConcat([a, b], rest);
    CombinedConcat(rest, [MergeTables(b, a)]);
    MergeTablesLaws(a, b, map[]);
    MergeTablesLaws(MergeTables(a, b), Combined(rest), map[]);
  }

  /** Neither does moving one table. */
  lemma CombinedMove(xs: seq<Table>, ys: seq<Table>, j: nat)
    requires j < |ys|
    ensures Combined(xs + [ys[j]] + (ys[..j] + ys[j+1..])) == Combined(xs + ys)
  {
    var a, b, c := Combined(ys[..j]), ys[j], Combined(ys[j+1..]);
    assert ys == ys[..j] + [ys[j]] + ys[j+1..];
    CombinedOne(b);
    CombinedConcat(ys[..j], [ys[j]]);
    CombinedConcat(ys[..j] + [ys[j]], ys[j+1..]);
    CombinedConcat(ys[..j], ys[j+1..]);
    CombinedConcat(xs, ys);
    CombinedConcat(xs, [ys[j]]);
    CombinedConcat(xs + [ys[j]], ys[..j] + ys[j+1..]);
    MergeTablesLaws(a, b, map[]);
    MergeTablesLaws(b, a, c);
    MergeTablesLaws(Combined(xs), b, MergeTables(a, c));
  }

  // ----- how many rounds

  /** A round halves the list, an odd table waits. */
  function Rounds(l: nat): (k: nat) {
    if l <= 1 then 0 else 1 + Rounds((l + 1) / 2)
  }

  function Pow2(k: nat): (p: nat) {
    if k == 0 then 1 else 2 * Pow2(k - 1)
  }

  /** The number of rounds is the binary logarithm, rounded up. */
  lemma {:induction false} RoundsIsLog(l: nat)
    requires l >= 1
    ensures l <= Pow2(Rounds(l))
    ensures l > 1 ==> Pow2(Rounds(l) - 1) < l
    decreases l
  {
    if l > 1 {
      RoundsIsLog((l + 1) / 2);
    }
  }

  // ----- the loops

  /** Sends the first `n` pairs of the list to the adders. */
  method SendPairs(additions: seq<Table>, n: nat, size: nat) returns (rest: seq<Table>, pending: seq<Table>)
    requires 2 * n <= |additions|
    requires forall i :: 0 <= i < |additions| ==> Adder.ShapedTable(additions[i], size)
    ensures |rest| == |additions| - 2 * n && |pending| == n
    ensures forall i :: 0 <= i < |rest| ==> Adder.ShapedTable(rest[i], size)
    ensures forall i :: 0 <= i < |pending| ==> Adder.ShapedTable(pending[i], size)
    ensures Combined(rest + pending) == Combined(additions)
  {
    rest, pending := additions, [];
    assert additions + [] == additions;
    for i := 0 to n
      invariant |rest| == |additions| - 2 * i && |pending| == i
      invariant forall k :: 0 <= k < |rest| ==> Adder.ShapedTable(rest[k], size)
      invariant forall k :: 0 <= k < |pending| ==> Adder.ShapedTable(pending[k], size)
      invariant Combined(rest + pending) == Combined(additions)
    {
      var p1, p2 := rest[0], rest[1];
      var answer := Adder.MergeProcessors(p2, p1, size);
      CombinedPair(p1, p2, rest[2..] + pending);
      assert [p1, p2] + (rest[2..] + pending) == rest + pending;
      assert rest[2..] + pending + [answer] == rest[2..] + (pending + [answer]);
      rest, pending := rest[2..], pending + [answer];
    }
  }

  /** Receives all replies, in any order. */
  method ReceiveReplies(rest: seq<Table>, replies: seq<Table>, size: nat) returns (list: seq<Table>)
    requires forall i :: 0 <= i < |rest| ==> Adder.ShapedTable(rest[i], size)
    requires forall i :: 0 <= i < |replies| ==> Adder.ShapedTable(replies[i], size)
    ensures |list| == |rest| + |replies|
    ensures forall i :: 0 <= i < |list| ==> Adder.ShapedTable(list[i], size)
    ensures Combined(list) == Combined(rest + replies)
  {
    list := rest;
    var pending := replies;
    while pending != []
      invariant |list| + |pending| == |rest| + |replies|
      invariant forall k :: 0 <= k < |list| ==> Adder.ShapedTable(list[k], size)
      invariant forall k :: 0 <= k < |pending| ==> Adder.ShapedTable(pending[k], size)
      invariant Combined(list + pending) == Combined(rest + replies)
      decreases |pending|
    {
      var j :| 0 <= j < |pending|;
      CombinedMove(list, pending, j);
      list, pending := list + [pending[j]], pending[..j] + pending[j+1..];
    }
    assert list + [] == list;
  }

  /** merge_processors of the controller: one table is left, whatever the reply order. */
  method MergeProcessors(additions: seq<Table>, size: nat) returns (list: seq<Table>, requests: nat, rounds: nat)
    requires forall i :: 0 <= i < |additions| ==> Adder.ShapedTable(additions[i], size)
    ensures additions == [] ==> list == [] && requests == 0 && rounds == 0
    ensures additions != [] ==>
            list == [Combined(additions)] && requests == |additions| - 1 && rounds == Rounds(|additions|)
  {
    list, requests, rounds := additions, 0, 0;
    while |list| > 1
      invariant additions == [] ==> list == [] && requests == 0 && rounds == 0
      invariant additions != [] ==> list != []
      invariant forall k :: 0 <= k < |list| ==> Adder.ShapedTable(list[k], size)
      invariant Combined(list) == Combined(additions)
      invariant requests == |additions| - |list| && rounds + Rounds(|list|) == Rounds(|additions|)
      decreases |list|
    {
      var n := |list| / 2;
      var rest, pending := SendPairs(list, n, size);
      list := ReceiveReplies(rest, pending, size);
      requests, rounds := requests + n, rounds + 1;
    }
    if list != [] { CombinedOne(list[0]); }
  }
}
