/** A run in which a reference gets lost: a parser ignores that a message could not be sent. */
module StreamInfoLeak {
  import opened Options
  import opened StreamInfo
  import opened StreamInfoProofs

  lemma {:induction false} Extend(s: State, steps: seq<Step>, step: Step)
    requires Run(s, steps) && Wf(After(s, steps)) && Enabled(After(s, steps), step)
    ensures Run(s, steps + [step]) && After(s, steps + [step]) == Do(After(s, steps), step)
    decreases |steps|
  {
    if steps == [] {
      assert [step][1..] == [];
    } else {
      assert (steps + [step])[0] == steps[0] && (steps + [step])[1..] == steps[1..] + [step];
      Extend(Do(s, steps[0]), steps[1..], step);
    }
  }

  /** A state that steps of thread 0 lead to. */
  ghost predicate Reached(s: State) {
    exists steps :: Run(Start({0}), steps) && After(Start({0}), steps) == s
  }

  lemma ReachedIsWf(s: State)
    requires Reached(s)
    ensures Wf(s)
  {
    var steps :| Run(Start({0}), steps) && After(Start({0}), steps) == s;
    StartIsInv({0});
    RunKeepsInv(Start({0}), steps, 0);
  }

  /** A step of a run, with the state it leads to. */
  ghost predicate Leads(s: State, step: Step, s': State) {
    Enabled(s, step) && (Wf(s) ==> Do(s, step) == s')
  }

  lemma Then(s: State, step: Step, s': State)
    requires Reached(s) && Leads(s, step, s')
    ensures Reached(s')
  {
    ReachedIsWf(s);
    var steps :| Run(Start({0}), steps) && After(Start({0}), steps) == s;
    Extend(Start({0}), steps, step);
  }

  // ----- the states of the run

  const OWNED: map<nat, Option<Thread>> := map[0 := Some(0)]

  /** One configured stream. */
  function With(count: int, holders: map<Holder, Id>, pc: Pc, lock: Option<Thread>, owners: map<nat, Option<Thread>>,
                leaks: map<Id, nat>): (s: State)
  {
    State(map[0 := Info(count, false)], holders, map[], map[0 := pc], lock, 1, owners, leaks, false)
  }

  lemma AtStart()
    ensures Reached(Start({0}))
  {
    StartIsInv({0});
    var steps: seq<Step> := [];
    assert Run(Start({0}), steps) && After(Start({0}), steps) == Start({0});
  }

  const CREATED :=
    State(map[0 := Info(1, false)], map[Entry(1, "s") := 0], map[], map[0 := Idle], None, 0, map[], map[], false)

  const SWAPPING :=
    State(map[0 := Info(1, false)], map[Entry(1, "s") := 0], map[], map[0 := Pc.Swapping], Some(0), 0, map[], map[],
          false)

  const INSTALLED :=
    With(1, map[Entry(1, "s") := 0], Idle, None, map[], map[])

  const SEARCHING :=
    With(1, map[Entry(1, "s") := 0], Locked("s", false), Some(0), map[], map[])

  const FOUND :=
    With(1, map[Entry(1, "s") := 0], Pc.Found("s", false, 0), Some(0), map[], map[])

  const COUNTED :=
    With(2, map[Entry(1, "s") := 0, Busy(0) := 0], Pc.Counted("s", false), Some(0), map[], map[])

  const UNLOCKED :=
    With(2, map[Entry(1, "s") := 0, Busy(0) := 0], Got, None, map[], map[])

  const RETURNED :=
    With(2, map[Entry(1, "s") := 0, Local(0, 0) := 0], Idle, None, map[], map[])

  const GIVEN :=
    With(2, map[Entry(1, "s") := 0, Processor(0) := 0], Idle, None, OWNED, map[])

  const READ :=
    With(2, map[Entry(1, "s") := 0, Processor(0) := 0], Referencing(0, 0), None, OWNED, map[])

  const REFERENCED :=
    With(3, map[Entry(1, "s") := 0, Processor(0) := 0, Busy(0) := 0], Sending, None, OWNED, map[])

  const LOST :=
    With(3, map[Entry(1, "s") := 0, Processor(0) := 0], Idle, None, OWNED, map[0 := 1])

  lemma CreatedNext()
    ensures Leads(Start({0}), NewInfo(0, "s", 0), CREATED)
  {
  }

  lemma SwappingNext()
    ensures Leads(CREATED, StartSwap(0), SWAPPING)
  {
  }

  lemma InstalledNext()
    ensures Leads(SWAPPING, Install(0), INSTALLED)
  {
  }

  lemma SearchingNext()
    ensures Leads(INSTALLED, Lock(0, "s", false), SEARCHING)
  {
  }

  lemma FoundNext()
    ensures Leads(SEARCHING, LookUp(0), FOUND)
  {
  }

  lemma CountedNext()
    ensures Leads(FOUND, CountFound(0), COUNTED)
  {
  }

  lemma UnlockedNext()
    ensures Leads(COUNTED, Unlock(0), UNLOCKED)
  {
  }

  lemma ReturnedNext()
    ensures Leads(UNLOCKED, Return(0, 0), RETURNED)
  {
  }

  lemma GivenNext()
    ensures Leads(RETURNED, GiveToProcessor(0, 0, 0), GIVEN)
  {
  }

  lemma ReadNext()
    ensures Leads(GIVEN, ReadProcessor(0, 0), READ)
  {
  }

  lemma ReferencedNext()
    ensures Leads(READ, Reference(0), REFERENCED)
  {
  }

  lemma LostNext()
    ensures Leads(REFERENCED, SendFailsSilently(0), LOST)
  {
  }

  /** The info has one holder less than its count, and so will never be freed. */
  lemma ReferencesGetLost()
    ensures Reached(LOST) && Leaked(LOST, 0) == 1
  {
    AtStart();
    CreatedNext();
    Then(Start({0}), NewInfo(0, "s", 0), CREATED);
    SwappingNext();
    Then(CREATED, StartSwap(0), SWAPPING);
    InstalledNext();
    Then(SWAPPING, Install(0), INSTALLED);
    SearchingNext();
    Then(INSTALLED, Lock(0, "s", false), SEARCHING);
    FoundNext();
    Then(SEARCHING, LookUp(0), FOUND);
    CountedNext();
    Then(FOUND, CountFound(0), COUNTED);
    UnlockedNext();
    Then(COUNTED, Unlock(0), UNLOCKED);
    ReturnedNext();
    Then(UNLOCKED, Return(0, 0), RETURNED);
    GivenNext();
    Then(RETURNED, GiveToProcessor(0, 0, 0), GIVEN);
    ReadNext();
    Then(GIVEN, ReadProcessor(0, 0), READ);
    ReferencedNext();
    Then(READ, Reference(0), REFERENCED);
    LostNext();
    Then(REFERENCED, SendFailsSilently(0), LOST);
  }
}
