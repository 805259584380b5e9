/**
 * Every run of the pipeline can be continued until everything is written, and
 * all settled runs agree with one sequential processor exactly when no metric
 * mixes signs.
 */
module PipelineProgress {
  import opened ProcessorModel
  import opened Paths
  import opened Pipeline
  import opened PipelineProofs
  import opened Importer
  import opened TaskCells

  lemma Take(r: Resources, s: State, s': State)
    requires Next(r, s, s')
    ensures Reaches(Steps(r), s, s')
  {
    One(Steps(r), s, s');
  }

  // ----- nothing gets stuck

  /** How far a tick has come fits the number of parsers and the length of the list. */
  predicate Sane(n: nat, s: State) {
    && |s.parsers| == n
    && match s.phase
       case Idle => true
       case Collecting(got) => |got| <= n
       case Merging(_, list, toSend, pending) => 2 * toSend <= |list| && |list| + |pending| >= 1
  }

  lemma StepKeepsSane(r: Resources, n: nat, s: State, s': State)
    requires n >= 1 && Sane(n, s) && Next(r, s, s')
    ensures Sane(n, s')
  {
  }

  ghost predicate Good(r: Resources, n: nat, s: State) {
    n >= 1 && Inv(r, s) && AllWritable(s.queue) && Sane(n, s)
  }

  lemma StepKeepsGood(r: Resources, n: nat, s: State, s': State)
    requires Good(r, n, s) && Next(r, s, s')
    ensures Good(r, n, s')
  {
    StepKeepsInv(r, s, s');
    StepKeepsWritable(r, s, s');
    StepKeepsSane(r, n, s, s');
  }

  lemma ReachesKeepsGood(r: Resources, n: nat, s: State, s': State)
    requires Good(r, n, s) && Reaches(Steps(r), s, s')
    ensures Good(r, n, s')
  {
    var next, good := Steps(r), (a: State) => Good(r, n, a);
    forall a, b | good(a) && next(a, b) ensures good(b) { StepKeepsGood(r, n, a, b); }
    ReachesKeep(next, good, s, s');
  }

  lemma InitIsGood(r: Resources, n: nat, s: State)
    requires n >= 1 && Init(s, n)
    ensures Good(r, n, s)
  {
    InitInv(r, s, n);
  }

  lemma {:induction false} RunIsGood(r: Resources, n: nat, ss: seq<State>)
    requires n >= 1 && Run(r, n, ss)
    ensures Good(r, n, ss[|ss| - 1])
    decreases |ss|
  {
    var m := |ss| - 1;
    if m == 0 {
      InitIsGood(r, n, ss[0]);
    } else {
      RunIsGood(r, n, ss[..m]);
      StepKeepsGood(r, n, ss[m - 1], ss[m]);
    }
  }

  // ----- finishing a tick

  /** The rounds of a merge come to an end. */
  lemma {:induction false} FinishRounds(r: Resources, n: nat, s: State) returns (s': State)
    requires Sane(n, s) && s.phase.Merging?
    ensures Reaches(Steps(r), s, s') && RoundsDone(s') && s'.phase.last == s.phase.last && s' == s.(phase := s'.phase)
    decreases |s.phase.list| + |s.phase.pending|, if s.phase.toSend > 0 then 0 else |s.phase.pending| + 1
  {
    var p := s.phase;
    s' := s;
    if RoundsDone(s) {
      Stay(Steps(r), s);
    } else {
      var t := RoundStep(s);
      if p.toSend > 0 {
        assert SendPair(s, t);
      } else if p.pending != [] {
        assert Reply(s, t, 0);
      } else {
        assert NextRound(s, t);
      }
      Take(r, s, t);
      s' := FinishRounds(r, n, t);
      Then(Steps(r), s, t, s');
    }
  }

  function RoundStep(s: State): (s': State)
    requires s.phase.Merging? && 2 * s.phase.toSend <= |s.phase.list|
  {
    var p := s.phase;
    if p.toSend > 0 then
      s.(phase := p.(list := p.list[2..], toSend := p.toSend - 1,
                     pending := p.pending + [MergeTraced(p.list[0], p.list[1])]))
    else if p.pending != [] then s.(phase := p.(list := p.list + [p.pending[0]], pending := Without(p.pending, 0)))
    else s.(phase := p.(toSend := |p.list| / 2))
  }

  lemma {:induction false} EnumerateNames(t: Table) returns (names: seq<string>)
    ensures Enumerates(names, t)
    decreases |t|
  {
    names := [];
    if t != map[] {
      var db :| db in t;
      var rest := t - {db};
      names := EnumerateNames(rest);
      names := names + [db];
    }
  }

  /** What a tick leaves when it is over: every fifth forwards one table. */
  ghost predicate TickOver(s: State, s': State) {
    && s'.phase.Idle? && s'.parsers == s.parsers && s'.parsed == s.parsed && s'.ticks == s.ticks
    && if s.ticks % 5 == 0
       then s'.collected == [] && |s'.forwarded| == |s.forwarded| + 1 && s'.forwarded[..|s.forwarded|] == s.forwarded
       else s'.forwarded == s.forwarded
  }

  lemma EndTick(r: Resources, n: nat, s: State) returns (s': State)
    requires Good(r, n, s) && RoundsDone(s) && s.phase.last
    ensures Reaches(Steps(r), s, s') && TickOver(s, s')
  {
    assert s.collected == [];
    var t := s.phase.list[0];
    var names := EnumerateNames(t.table);
    if s.ticks % DATABASE_UPDATE_INTERVAL == 0 {
      s' := s.(phase := Idle, queue := s.queue + AllTasks(t.table, names), forwarded := s.forwarded + [t]);
    } else {
      s' := s.(phase := Idle, collected := s.phase.list);
    }
    assert FinishTick(s, s', names);
    Take(r, s, s');
  }

  lemma FinishLastMerge(r: Resources, n: nat, s: State) returns (s': State)
    requires Good(r, n, s) && s.phase.Merging? && s.phase.last
    ensures Reaches(Steps(r), s, s') && TickOver(s, s')
  {
    var t := FinishRounds(r, n, s);
    ReachesKeepsGood(r, n, s, t);
    s' := EndTick(r, n, t);
    Then(Steps(r), s, t, s');
  }

  lemma FinishMerge(r: Resources, n: nat, s: State) returns (s': State)
    requires Good(r, n, s) && s.phase.Merging?
    ensures Reaches(Steps(r), s, s') && TickOver(s, s')
  {
    if s.phase.last {
      s' := FinishLastMerge(r, n, s);
    } else {
      var t := FinishRounds(r, n, s);
      var all := t.collected + t.phase.list;
      var u := t.(phase := Merging(true, all, |all| / 2, []), collected := []);
      assert Accumulate(t, u);
      Take(r, t, u);
      Then(Steps(r), s, t, u);
      ReachesKeepsGood(r, n, s, u);
      s' := FinishLastMerge(r, n, u);
      Then(Steps(r), s, u, s');
    }
  }

  /** The parsers that have not answered yet do so, and start over. */
  lemma {:induction false} FinishCollecting(r: Resources, n: nat, s: State) returns (s': State)
    requires Sane(n, s) && s.phase.Collecting?
    ensures Reaches(Steps(r), s, s') && s'.phase.Merging?
    ensures s' == s.(phase := s'.phase, parsers := s'.parsers) && |s'.parsers| == n
    ensures forall i :: 0 <= i < n ==> s'.parsers[i] == if i < |s.phase.got| then s.parsers[i] else NOTHING
    decreases n - |s.phase.got|
  {
    var i := |s.phase.got|;
    if i == n {
      s' := s.(phase := Merging(false, s.phase.got, |s.phase.got| / 2, []));
      assert StartMerge(s, s');
      Take(r, s, s');
    } else {
      var t := s.(phase := Collecting(s.phase.got + [s.parsers[i]]), parsers := s.parsers[i := NOTHING]);
      assert Collect(s, t);
      Take(r, s, t);
      s' := FinishCollecting(r, n, t);
      Then(Steps(r), s, t, s');
    }
  }

  // ----- from tick to tick

  /** A whole tick empties all parsers. */
  lemma OneTick(r: Resources, n: nat, s: State) returns (s': State)
    requires Good(r, n, s) && s.phase.Idle?
    ensures Reaches(Steps(r), s, s') && Good(r, n, s')
    ensures TickOver(s.(parsers := s'.parsers, ticks := s.ticks + 1), s')
    ensures forall i :: 0 <= i < n ==> s'.parsers[i] == NOTHING
  {
    var t := s.(phase := Collecting([]), ticks := s.ticks + 1);
    assert StartTick(s, t);
    Take(r, s, t);
    var u := FinishCollecting(r, n, t);
    Then(Steps(r), s, t, u);
    ReachesKeepsGood(r, n, s, u);
    s' := FinishMerge(r, n, u);
    Then(Steps(r), s, u, s');
    ReachesKeepsGood(r, n, s, s');
  }

  /** From wherever it is, a tick comes to its end. */
  lemma BecomeIdle(r: Resources, n: nat, s: State) returns (s': State)
    requires Good(r, n, s)
    ensures Reaches(Steps(r), s, s') && Good(r, n, s') && s'.phase.Idle? && s'.parsed == s.parsed
  {
    s' := s;
    match s.phase {
      case Idle =>
        Stay(Steps(r), s);
      case Collecting(_) =>
        var t := FinishCollecting(r, n, s);
        ReachesKeepsGood(r, n, s, t);
        s' := FinishMerge(r, n, t);
        Then(Steps(r), s, t, s');
      case Merging(_, _, _, _) =>
        s' := FinishMerge(r, n, s);
    }
    ReachesKeepsGood(r, n, s, s');
  }

  /** The state after the next fifth tick: one more table was forwarded, and nothing is held back. */
  ghost predicate AllHandedOver(n: nat, s: State, s': State) {
    && s'.phase.Idle? && s'.collected == [] && s'.parsed == s.parsed
    && |s'.parsers| == n && (forall i :: 0 <= i < n ==> s'.parsers[i] == NOTHING)
    && |s'.forwarded| == |s.forwarded| + 1 && s'.forwarded[..|s.forwarded|] == s.forwarded
  }

  lemma {:induction false} TickUntilForwarded(r: Resources, n: nat, s: State) returns (s': State)
    requires Good(r, n, s) && s.phase.Idle?
    ensures Reaches(Steps(r), s, s') && Good(r, n, s') && AllHandedOver(n, s, s')
    decreases DATABASE_UPDATE_INTERVAL - s.ticks % DATABASE_UPDATE_INTERVAL
  {
    s' := OneTick(r, n, s);
    if s'.ticks % DATABASE_UPDATE_INTERVAL != 0 {
      var t := s';
      s' := TickUntilForwarded(r, n, t);
      Then(Steps(r), s, t, s');
    }
  }

  /** The updaters get to the end of the queue. */
  lemma {:induction false} Drain(r: Resources, n: nat, s: State) returns (s': State)
    requires Good(r, n, s)
    ensures Reaches(Steps(r), s, s') && Good(r, n, s') && s' == s.(queue := [], db := s'.db)
    decreases |s.queue|
  {
    s' := s;
    if s.queue == [] {
      Stay(Steps(r), s);
    } else {
      var db := WriteExists(s.db, s.queue[0]);
      var t := s.(queue := Without(s.queue, 0), db := db);
      assert Update(s, t, 0);
      Take(r, s, t);
      ReachesKeepsGood(r, n, s, t);
      s' := Drain(r, n, t);
      Then(Steps(r), s, t, s');
    }
  }

  lemma SettleFromIdle(r: Resources, n: nat, s: State) returns (s': State)
    requires Good(r, n, s) && s.phase.Idle?
    ensures Reaches(Steps(r), s, s') && Good(r, n, s') && Settled(s') && AllHandedOver(n, s, s')
  {
    var t := TickUntilForwarded(r, n, s);
    s' := Drain(r, n, t);
    Then(Steps(r), s, t, s');
  }

  /** Every run with at least one parser can be continued, without further messages, until everything is written. */
  lemma EveryRunCanSettle(r: Resources, n: nat, ss: seq<State>) returns (more: seq<State>)
    requires n >= 1 && Run(r, n, ss)
    ensures Run(r, n, ss + more)
    ensures var z := (ss + more)[|ss + more| - 1]; Settled(z) && z.parsed == ss[|ss| - 1].parsed
  {
    var s := ss[|ss| - 1];
    RunIsGood(r, n, ss);
    var t := BecomeIdle(r, n, s);
    var z := SettleFromIdle(r, n, t);
    Then(Steps(r), s, t, z);
    more := Continued(Steps(r), Starts(n), ss, z);
  }
}
