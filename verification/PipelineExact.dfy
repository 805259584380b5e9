/** All settled runs agree with one sequential processor exactly when no metric mixes signs. */
module PipelineExact {
  import opened Options
  import opened ProcessorModel
  import opened Cells
  import opened Writes
  import opened Paths
  import opened Pipeline
  import opened PipelineProofs
  import opened PipelineProgress

  function Parsed(r: Resources, s: State, input: Input): (s': State)
    requires |s.parsers| == 1
  {
    var p := s.parsers[0];
    s.(parsers := [Traced(Receive(r, p.table, input), p.sources + [input])], parsed := s.parsed + [input])
  }

  lemma ParseOne(r: Resources, s: State, input: Input)
    requires |s.parsers| == 1
    ensures Reaches(Steps(r), s, Parsed(r, s, input))
  {
    var s' := Parsed(r, s, input);
    assert s'.parsers == s.parsers[0 := s'.parsers[0]];
    assert Parse(r, s, s', 0, input);
    Take(r, s, s');
  }

  function AllParsed(r: Resources, s: State, ins: seq<Input>): (s': State)
    requires |s.parsers| == 1
    ensures s' == s.(parsers := s'.parsers, parsed := s.parsed + ins)
    decreases |ins|
  {
    if ins == [] then
      assert s.parsed + ins == s.parsed;
      s
    else
      assert s.parsed + [ins[0]] + ins[1..] == s.parsed + ins;
      AllParsed(r, Parsed(r, s, ins[0]), ins[1..])
  }

  /** One parser takes messages one after the other. */
  lemma {:induction false} ParseAll(r: Resources, s: State, ins: seq<Input>)
    requires |s.parsers| == 1
    ensures Reaches(Steps(r), s, AllParsed(r, s, ins))
    decreases |ins|
  {
    if ins == [] {
      Stay(Steps(r), s);
    } else {
      ParseOne(r, s, ins[0]);
      ParseAll(r, Parsed(r, s, ins[0]), ins[1..]);
      Then(Steps(r), s, Parsed(r, s, ins[0]), AllParsed(r, s, ins));
    }
  }

  /** A batch of messages is parsed and forwarded in one table. */
  lemma OneBatch(r: Resources, s: State, ins: seq<Input>) returns (s': State)
    requires Good(r, 1, s) && Settled(s)
    ensures Reaches(Steps(r), s, s') && Good(r, 1, s') && Settled(s') && s'.parsed == s.parsed + ins
    ensures |s'.forwarded| == |s.forwarded| + 1 && s'.forwarded[..|s.forwarded|] == s.forwarded
    ensures s'.forwarded[|s.forwarded|].table == Fold(r, ins)
  {
    var t := AllParsed(r, s, ins);
    ParseAll(r, s, ins);
    ReachesKeepsGood(r, 1, s, t);
    s' := SettleFromIdle(r, 1, t);
    Then(Steps(r), s, t, s');
    LastForwarded(r, s, s', ins);
  }

  lemma LastForwarded(r: Resources, s: State, s': State, ins: seq<Input>)
    requires Inv(r, s) && Settled(s) && Inv(r, s') && Settled(s') && s'.parsed == s.parsed + ins
    requires |s'.forwarded| == |s.forwarded| + 1 && s'.forwarded[..|s.forwarded|] == s.forwarded
    ensures s'.forwarded[|s.forwarded|].table == Fold(r, ins)
  {
    var t := s'.forwarded[|s.forwarded|];
    AllForwarded(r, s);
    AllForwarded(r, s');
    assert Sources(s'.forwarded)[..|s.forwarded|] == Sources(s.forwarded);
    assert Forwarded(s') == Forwarded(s) + t.sources;
    forall x ensures multiset(t.sources)[x] == multiset(ins)[x] {
      assert multiset(Forwarded(s'))[x] == multiset(Forwarded(s))[x] + multiset(t.sources)[x];
      assert multiset(s'.parsed)[x] == multiset(s.parsed)[x] + multiset(ins)[x];
    }
    assert multiset(t.sources) == multiset(ins);
    FoldPermutes(r, t.sources, ins);
  }

  const START := State([NOTHING], Idle, [], 0, [], map[], [], [])

  lemma StartIsInit()
    ensures Init(START, 1) && Settled(START)
  {
    assert seq(1, _ => NOTHING) == [NOTHING];
  }

  lemma TwoBatches(r: Resources, xs: seq<Input>, ys: seq<Input>) returns (z: State)
    ensures Reaches(Steps(r), START, z) && Inv(r, z) && Settled(z) && z.parsed == xs + ys
    ensures Tables(z.forwarded) == [Fold(r, xs), Fold(r, ys)]
  {
    StartIsInit();
    InitIsGood(r, 1, START);
    var s := OneBatch(r, START, xs);
    z := OneBatch(r, s, ys);
    Then(Steps(r), START, s, z);
    assert START.parsed + xs == xs;
    TwoForwarded(s.forwarded, z.forwarded, Fold(r, xs), Fold(r, ys));
  }

  lemma TwoForwarded(one: seq<Traced>, two: seq<Traced>, a: Table, b: Table)
    requires |one| == 1 && |two| == 2 && two[..1] == one && one[0].table == a && two[1].table == b
    ensures Tables(two) == [a, b]
  {
    assert two[0] == two[..1][0];
  }

  /** A settled database holds exactly what was forwarded. */
  lemma SettledWrites(r: Resources, z: State, c: Cell)
    requires Inv(r, z) && Settled(z)
    ensures DbCell(z.db, c) == WrittenBy(Tables(z.forwarded), c)
  {
    assert WrittenBy(z.queue, c) == None;
  }

  /** For any two batches a run that forwards them in two tables. */
  lemma TwoBatchRun(r: Resources, xs: seq<Input>, ys: seq<Input>, c: Cell) returns (ss: seq<State>)
    ensures Run(r, 1, ss)
    ensures var z := ss[|ss| - 1];
            Settled(z) && z.parsed == xs + ys && DbCell(z.db, c) == WrittenBy([Fold(r, xs), Fold(r, ys)], c)
  {
    var z := TwoBatches(r, xs, ys);
    SettledWrites(r, z, c);
    StartIsInit();
    assert Run(r, 1, [START]);
    var more := Continued(Steps(r), Starts(1), [START], z);
    ss := [START] + more;
  }

  /** Whatever run has parsed these messages and settled, it has written what one sequential processor writes. */
  ghost predicate AlwaysSequential(r: Resources, ins: seq<Input>) {
    forall n, ss: seq<State>, c: Cell :: AgreesAfter(r, n, ss, ins, c)
  }

  ghost predicate AgreesAfter(r: Resources, n: nat, ss: seq<State>, ins: seq<Input>, c: Cell) {
    Run(r, n, ss) && Settled(ss[|ss| - 1]) && multiset(ss[|ss| - 1].parsed) == multiset(ins) ==>
      DbCell(ss[|ss| - 1].db, c) == TableCell(Fold(r, ins), c)
  }

  lemma UnmixedAgrees(r: Resources, n: nat, ss: seq<State>, ins: seq<Input>, c: Cell)
    requires NoMixedSigns(r, ins)
    requires Run(r, n, ss) && Settled(ss[|ss| - 1]) && multiset(ss[|ss| - 1].parsed) == multiset(ins)
    ensures DbCell(ss[|ss| - 1].db, c) == TableCell(Fold(r, ins), c)
  {
    var z := ss[|ss| - 1];
    PermutedSign(r, ins, z.parsed, c);
    ParallelIsSequential(r, n, ss, c);
    FoldPermutes(r, z.parsed, ins);
  }

  /**
   * The concurrent importer always writes what one sequential processor writes
   * if and only if no metric mixes signs.
   */
  lemma SequentialExactly(r: Resources, ins: seq<Input>)
    ensures AlwaysSequential(r, ins) <==> NoMixedSigns(r, ins)
  {
    if NoMixedSigns(r, ins) {
      forall n, ss: seq<State>, c: Cell ensures AgreesAfter(r, n, ss, ins, c) {
        if Run(r, n, ss) && Settled(ss[|ss| - 1]) && multiset(ss[|ss| - 1].parsed) == multiset(ins) {
          UnmixedAgrees(r, n, ss, ins, c);
        }
      }
    } else {
      SplitWritesAgreeExactly(r, ins);
      var xs, ys, c :| !WritesAgree(r, ins, xs, ys, c);
      var ss := TwoBatchRun(r, xs, ys, c);
      assert !AgreesAfter(r, 1, ss, ins, c);
    }
  }
}
