/** Every run of the pipeline conserves messages, and the database ends up with what one sequential fold would write. */
module PipelineProofs {
  import opened Options
  import opened Merging
  import opened ProcessorModel
  import opened Cells
  import opened Writes
  import opened Paths
  import opened Pipeline

  // ----- writing in any order

  lemma {:induction false} WrittenConcat(a: seq<Table>, b: seq<Table>, c: Cell)
    ensures WrittenBy(a + b, c) == Join(OpOf(c.field), WrittenBy(a, c), WrittenBy(b, c))
    decreases |b|
  {
    if b == [] {
      assert a + b == a;
    } else {
      var n := |b| - 1;
      assert (a + b)[..|a + b| - 1] == a + b[..n];
      WrittenConcat(a, b[..n], c);
      JoinAssociates(c.field, WrittenBy(a, c), WrittenBy(b[..n], c), TableCell(b[n], c));
    }
  }

  lemma WrittenOne(t: Table, c: Cell)
    ensures WrittenBy([t], c) == TableCell(t, c)
  {
    assert [t][..0] == [];
  }

  lemma WrittenWithout(ts: seq<Table>, j: nat, c: Cell)
    requires j < |ts|
    ensures WrittenBy(ts, c) == Join(OpOf(c.field), TableCell(ts[j], c), WrittenBy(Without(ts, j), c))
  {
    assert ts == ts[..j] + [ts[j]] + ts[j+1..];
    WrittenConcat(ts[..j] + [ts[j]], ts[j+1..], c);
    WrittenConcat(ts[..j], [ts[j]], c);
    WrittenConcat(ts[..j], ts[j+1..], c);
    WrittenOne(ts[j], c);
    JoinAssociates(c.field, WrittenBy(ts[..j], c), TableCell(ts[j], c), WrittenBy(ts[j+1..], c));
    JoinAssociates(c.field, TableCell(ts[j], c), WrittenBy(ts[..j], c), WrittenBy(ts[j+1..], c));
  }

  // ----- splitting a table into tasks

  lemma TasksWrite(db: string, p: Proc, c: Cell)
    ensures WrittenBy(Tasks(db, p), c) == TableCell(map[db := p], c)
  {
    var ts := Tasks(db, p);
    assert ts[..5] == ts && ts[..5][..4] == ts[..4] && ts[..4][..3] == ts[..3] && ts[..3][..2] == ts[..2] &&
           ts[..2][..1] == ts[..1] && ts[..1][..0] == [];
    var w1 := WrittenBy(ts[..1], c);
    assert ts[..1] == [ts[0]];
    WrittenOne(ts[0], c);
    var w2 := WrittenBy(ts[..2], c);
    assert w2 == Join(OpOf(c.field), w1, TableCell(ts[1], c));
    var w3 := WrittenBy(ts[..3], c);
    assert w3 == Join(OpOf(c.field), w2, TableCell(ts[2], c));
    var w4 := WrittenBy(ts[..4], c);
    assert w4 == Join(OpOf(c.field), w3, TableCell(ts[3], c));
    assert WrittenBy(ts, c) == Join(OpOf(c.field), w4, TableCell(ts[4], c));
    OtherTasksEmpty(db, p, c);
  }

  /** A cell is written by the task of its own collection only. */
  lemma OtherTasksEmpty(db: string, p: Proc, c: Cell)
    ensures var own := match c.doc
                       case TotalsDoc(_, _) => 0
                       case MinutesDoc(_, _, _) => 1
                       case QuantsDoc(_, _, _, _) => 2
                       case HeatmapDoc(_, _, _) => 3
                       case AgentsDoc(_, _) => 4;
            forall i :: 0 <= i < 5 ==>
              TableCell(Tasks(db, p)[i], c) == if i == own then TableCell(map[db := p], c) else None
  {
  }

  lemma {:induction false} AllTasksWrite(t: Table, names: seq<string>, c: Cell)
    requires forall i :: 0 <= i < |names| ==> names[i] in t
    requires forall i, j :: 0 <= i < j < |names| ==> names[i] != names[j]
    ensures WrittenBy(AllTasks(t, names), c) == if c.doc.db in names then TableCell(t, c) else None
  {
    if names != [] {
      var n := |names| - 1;
      var db := names[n];
      AllTasksWrite(t, names[..n], c);
      WrittenConcat(AllTasks(t, names[..n]), Tasks(db, t[db]), c);
      TasksWrite(db, t[db], c);
      assert names == names[..n] + [db];
      assert db !in names[..n];
    }
  }

  // ----- each step keeps the invariant

  lemma ParseConserves(r: Resources, s: State, s': State, i: nat, input: Input, x: Input)
    requires ConservedAt(s, x) && Parse(r, s, s', i, input)
    ensures ConservedAt(s', x)
  {
    TimesUpdate(s.parsers, i, s'.parsers[i], x);
  }

  lemma ParseKeeps(r: Resources, s: State, s': State, i: nat, input: Input)
    requires Inv(r, s) && Parse(r, s, s', i, input)
    ensures Inv(r, s')
  {
    var t := s.parsers[i];
    assert (t.sources + [input])[..|t.sources|] == t.sources;
    forall x ensures ConservedAt(s', x) {
      assert ConservedAt(s, x);
      ParseConserves(r, s, s', i, input, x);
    }
  }

  lemma CollectConserves(s: State, s': State, x: Input)
    requires ConservedAt(s, x) && Collect(s, s')
    ensures ConservedAt(s', x)
  {
    var i := |s.phase.got|;
    TimesUpdate(s.parsers, i, NOTHING, x);
    TimesConcat(s.phase.got, [s.parsers[i]], x);
    TimesOne(s.parsers[i], x);
  }

  lemma CollectKeeps(r: Resources, s: State, s': State)
    requires Inv(r, s) && Collect(s, s')
    ensures Inv(r, s')
  {
    assert Fold(r, []) == map[];
    forall x ensures ConservedAt(s', x) {
      assert ConservedAt(s, x);
      CollectConserves(s, s', x);
    }
  }

  lemma StartMergeKeeps(r: Resources, s: State, s': State)
    requires Inv(r, s) && StartMerge(s, s')
    ensures Inv(r, s')
  {
    assert Held(s'.phase) == Held(s.phase);
    forall x ensures ConservedAt(s', x) {
      assert ConservedAt(s, x);
    }
  }

  lemma PairParts(list: seq<Traced>, pending: seq<Traced>, m: Traced)
    requires |list| >= 2
    ensures list + pending == [list[0]] + [list[1]] + (list[2..] + pending)
    ensures list[2..] + (pending + [m]) == (list[2..] + pending) + [m]
  {
  }

  lemma SendPairConserves(list: seq<Traced>, pending: seq<Traced>, x: Input)
    requires |list| >= 2
    ensures Times(list[2..] + (pending + [MergeTraced(list[0], list[1])]), x) == Times(list + pending, x)
  {
    var rest := list[2..] + pending;
    var m := MergeTraced(list[0], list[1]);
    PairParts(list, pending, m);
    TimesConcat([list[0]] + [list[1]], rest, x);
    TimesConcat([list[0]], [list[1]], x);
    TimesOne(list[0], x);
    TimesOne(list[1], x);
    TimesConcat(rest, [m], x);
    TimesOne(m, x);
  }

  lemma SendPairHonest(r: Resources, list: seq<Traced>, pending: seq<Traced>)
    requires |list| >= 2 && Honest(r, list + pending)
    ensures Honest(r, list[2..] + (pending + [MergeTraced(list[0], list[1])]))
  {
    var ts := list + pending;
    assert ts[0] == list[0] && ts[1] == list[1];
    FoldConcat(r, list[1].sources, list[0].sources);
    var m := MergeTraced(list[0], list[1]);
    var ts' := list[2..] + (pending + [m]);
    forall k | 0 <= k < |ts'| ensures ts'[k].table == Fold(r, ts'[k].sources) {
      if k < |ts'| - 1 { assert ts'[k] == ts[k + 2]; }
    }
  }

  lemma SendPairKeeps(r: Resources, s: State, s': State)
    requires Inv(r, s) && SendPair(s, s')
    ensures Inv(r, s')
  {
    SendPairHonest(r, s.phase.list, s.phase.pending);
    forall x ensures ConservedAt(s', x) {
      assert ConservedAt(s, x);
      SendPairConserves(s.phase.list, s.phase.pending, x);
    }
  }

  lemma ReplyConserves(list: seq<Traced>, pending: seq<Traced>, j: nat, x: Input)
    requires j < |pending|
    ensures Times(list + [pending[j]] + Without(pending, j), x) == Times(list + pending, x)
  {
    TimesConcat(list, pending, x);
    TimesWithout(pending, j, x);
    TimesConcat(list + [pending[j]], Without(pending, j), x);
    TimesConcat(list, [pending[j]], x);
    TimesOne(pending[j], x);
  }

  lemma ReplyHonest(r: Resources, list: seq<Traced>, pending: seq<Traced>, j: nat)
    requires Honest(r, list + pending) && j < |pending|
    ensures Honest(r, list + [pending[j]] + Without(pending, j))
  {
    var ts := list + pending;
    assert forall k :: 0 <= k < |list| ==> list[k] == ts[k];
    assert forall k :: 0 <= k < |pending| ==> pending[k] == ts[|list| + k];
  }

  lemma ReplyKeeps(r: Resources, s: State, s': State, j: nat)
    requires Inv(r, s) && Reply(s, s', j)
    ensures Inv(r, s')
  {
    ReplyHonest(r, s.phase.list, s.phase.pending, j);
    forall x ensures ConservedAt(s', x) {
      assert ConservedAt(s, x);
      ReplyConserves(s.phase.list, s.phase.pending, j, x);
    }
  }

  lemma AccumulateKeeps(r: Resources, s: State, s': State)
    requires Inv(r, s) && Accumulate(s, s')
    ensures Inv(r, s')
  {
    var list := s.phase.list;
    assert Held(s.phase) == list + [] == list;
    assert Held(s'.phase) == s.collected + list + [] == s.collected + list;
    forall x ensures ConservedAt(s', x) {
      assert ConservedAt(s, x);
      TimesConcat(s.collected, list, x);
    }
  }

  lemma ForwardAccounted(s: State, s': State, names: seq<string>)
    requires Accounted(s) && FinishTick(s, s', names) && s.ticks % DATABASE_UPDATE_INTERVAL == 0
    ensures Accounted(s')
  {
    var t := s.phase.list[0];
    assert Tables(s'.forwarded) == Tables(s.forwarded) + [t.table];
    forall c: Cell
      ensures Join(OpOf(c.field), DbCell(s'.db, c), WrittenBy(s'.queue, c)) ==
              WrittenBy(Tables(s'.forwarded), c)
    {
      WrittenConcat(Tables(s.forwarded), [t.table], c);
      WrittenOne(t.table, c);
      WrittenConcat(s.queue, AllTasks(t.table, names), c);
      AllTasksWrite(t.table, names, c);
      JoinAssociates(c.field, DbCell(s.db, c), WrittenBy(s.queue, c), TableCell(t.table, c));
    }
  }

  lemma FinishTickKeeps(r: Resources, s: State, s': State, names: seq<string>)
    requires Inv(r, s) && FinishTick(s, s', names)
    ensures Inv(r, s')
  {
    var list := s.phase.list;
    assert Held(s.phase) == list + [] == list;
    assert s.collected == [];
    if s.ticks % DATABASE_UPDATE_INTERVAL == 0 {
      ForwardAccounted(s, s', names);
      assert list == [list[0]];
      forall x ensures ConservedAt(s', x) {
        assert ConservedAt(s, x);
        TimesConcat(s.forwarded, list, x);
      }
    } else {
      forall x ensures ConservedAt(s', x) {
        assert ConservedAt(s, x);
      }
    }
  }

  lemma UpdateKeeps(r: Resources, s: State, s': State, j: nat)
    requires Inv(r, s) && Update(s, s', j)
    ensures Inv(r, s')
  {
    forall c: Cell
      ensures Join(OpOf(c.field), DbCell(s'.db, c), WrittenBy(s'.queue, c)) ==
              WrittenBy(Tables(s'.forwarded), c)
    {
      WrittenWithout(s.queue, j, c);
      JoinAssociates(c.field, DbCell(s.db, c), TableCell(s.queue[j], c), WrittenBy(s'.queue, c));
    }
    forall x ensures ConservedAt(s', x) {
      assert ConservedAt(s, x);
    }
  }

  lemma PhaseKeeps(r: Resources, s: State, s': State)
    requires Inv(r, s) && (StartTick(s, s') || NextRound(s, s'))
    ensures Inv(r, s')
  {
    assert Held(s'.phase) == Held(s.phase);
    forall x ensures ConservedAt(s', x) {
      assert ConservedAt(s, x);
    }
  }

  lemma StepKeepsInv(r: Resources, s: State, s': State)
    requires Inv(r, s) && Next(r, s, s')
    ensures Inv(r, s')
  {
    if i, input :| Parse(r, s, s', i, input) {
      ParseKeeps(r, s, s', i, input);
    } else if StartTick(s, s') || NextRound(s, s') {
      PhaseKeeps(r, s, s');
    } else if Collect(s, s') {
      CollectKeeps(r, s, s');
    } else if StartMerge(s, s') {
      StartMergeKeeps(r, s, s');
    } else if SendPair(s, s') {
      SendPairKeeps(r, s, s');
    } else if j :| Reply(s, s', j) {
      ReplyKeeps(r, s, s', j);
    } else if Accumulate(s, s') {
      AccumulateKeeps(r, s, s');
    } else if names :| FinishTick(s, s', names) {
      FinishTickKeeps(r, s, s', names);
    } else if j :| Update(s, s', j) {
      UpdateKeeps(r, s, s', j);
    }
  }

  // ----- runs

  /** The steps of the pipeline as a relation. */
  ghost function Steps(r: Resources): (next: (State, State) -> bool) {
    (s: State, s': State) => Next(r, s, s')
  }

  ghost function Starts(n: nat): (start: State -> bool) {
    (s: State) => Init(s, n)
  }

  /** A run of the importer with `n` parsers. */
  ghost predicate Run(r: Resources, n: nat, ss: seq<State>) {
    Chain(Steps(r), Starts(n), ss)
  }

  lemma InitInv(r: Resources, s: State, n: nat)
    requires Init(s, n)
    ensures Inv(r, s)
  {
    assert Fold(r, []) == map[];
    forall x ensures ConservedAt(s, x) {
      NoTimes(n, x);
    }
    forall c: Cell
      ensures Join(OpOf(c.field), DbCell(s.db, c), WrittenBy(s.queue, c)) ==
              WrittenBy(Tables(s.forwarded), c)
    {
      assert Tables([]) == [];
    }
  }

  lemma {:induction false} NoTimes(n: nat, x: Input)
    ensures Times(seq(n, _ => NOTHING), x) == 0
  {
    if n > 0 {
      NoTimes(n - 1, x);
      assert seq(n, _ => NOTHING)[..n-1] == seq(n - 1, _ => NOTHING);
    }
  }

  /** In every state of every run, each parsed message is in a parser, with the controller, collected or forwarded. */
  lemma {:induction false} RunKeepsInv(r: Resources, n: nat, ss: seq<State>)
    requires Run(r, n, ss)
    ensures Inv(r, ss[|ss| - 1])
    decreases |ss|
  {
    if |ss| == 1 {
      InitInv(r, ss[0], n);
    } else {
      var m := |ss| - 1;
      RunKeepsInv(r, n, ss[..m]);
      StepKeepsInv(r, ss[m - 1], ss[m]);
    }
  }

  // ----- the database

  function Sources(ts: seq<Traced>): (parts: seq<seq<Input>>)
    ensures |parts| == |ts| && forall i :: 0 <= i < |ts| ==> parts[i] == ts[i].sources
  {
    seq(|ts|, i requires 0 <= i < |ts| => ts[i].sources)
  }

  /** The messages that have been forwarded. */
  function Forwarded(s: State): (ins: seq<Input>) { Concat(Sources(s.forwarded)) }

  lemma {:induction false} ConcatTimes(ts: seq<Traced>, x: Input)
    ensures multiset(Concat(Sources(ts)))[x] == Times(ts, x)
  {
    if ts != [] {
      var n := |ts| - 1;
      ConcatTimes(ts[..n], x);
      assert Sources(ts)[..n] == Sources(ts[..n]);
    }
  }

  /** Database and queue together always hold what one sequential table of the forwarded messages would write. */
  lemma DatabaseIsFold(r: Resources, s: State, c: Cell)
    requires Inv(r, s) && OneSign(r, Forwarded(s), c)
    ensures Join(OpOf(c.field), DbCell(s.db, c), WrittenBy(s.queue, c)) == TableCell(Fold(r, Forwarded(s)), c)
  {
    WritesCompose(r, Sources(s.forwarded), c);
    assert Folds(r, Sources(s.forwarded)) == Tables(s.forwarded);
  }

  /** Everything has been forwarded and written. */
  ghost predicate Settled(s: State) {
    && s.phase.Idle? && s.collected == [] && s.queue == []
    && forall i :: 0 <= i < |s.parsers| ==> s.parsers[i].sources == []
  }

  lemma {:induction false} EmptyParsers(ts: seq<Traced>, x: Input)
    requires forall i :: 0 <= i < |ts| ==> ts[i].sources == []
    ensures Times(ts, x) == 0
  {
    if ts != [] {
      EmptyParsers(ts[..|ts|-1], x);
    }
  }

  /**
   * Whatever the assignment of messages to parsers, the interleaving with ticks, the reply order of the adders and the
   * order of updates: a settled importer has written what one sequential processor written once would have.
   */
  lemma ParallelIsSequential(r: Resources, n: nat, ss: seq<State>, c: Cell)
    requires Run(r, n, ss)
    requires var z := ss[|ss| - 1]; Settled(z) && OneSign(r, z.parsed, c)
    ensures var z := ss[|ss| - 1]; DbCell(z.db, c) == TableCell(Fold(r, z.parsed), c)
  {
    var z := ss[|ss| - 1];
    RunKeepsInv(r, n, ss);
    AllForwarded(r, z);
    PermutedSign(r, z.parsed, Forwarded(z), c);
    DatabaseIsFold(r, z, c);
    FoldPermutes(r, z.parsed, Forwarded(z));
  }

  lemma AllForwarded(r: Resources, z: State)
    requires Inv(r, z) && Settled(z)
    ensures multiset(Forwarded(z)) == multiset(z.parsed)
  {
    forall x ensures multiset(Forwarded(z))[x] == multiset(z.parsed)[x] {
      assert ConservedAt(z, x);
      EmptyParsers(z.parsers, x);
      ConcatTimes(z.forwarded, x);
    }
  }
}
