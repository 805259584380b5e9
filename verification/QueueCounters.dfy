/**
 * The counters `queued_updates` and `queued_inserts`: a producer first sends a
 * message and only then increments; a consumer decrements once it is done.
 * Producers and consumers interleave freely.
 */
module QueueCounters {
  type Thread = nat

  datatype State = State(
    counter: int,
    queued: nat,             // messages in the socket
    working: set<Thread>,    // consumers busy with a message
    pending: set<Thread>,    // producers between their send and their increment
    lost: nat)               // sends that failed and are counted all the same

  datatype Step =
    | Push(t: Thread)
    | PushFails(t: Thread)         // the failure is noticed: nothing is counted
    | PushFailsSilently(t: Thread) // the failure is ignored and counted: exceptions and events
    | CountUp(t: Thread)
    | Take(t: Thread)
    | CountDown(t: Thread)

  const START := State(0, 0, {}, {}, 0)

  predicate Enabled(producers: set<Thread>, s: State, step: Step) {
    match step
    case Push(t) => t in producers && t !in s.pending
    case PushFails(t) => t in producers && t !in s.pending
    case PushFailsSilently(t) => t in producers && t !in s.pending
    case CountUp(t) => t in s.pending
    case Take(t) => t !in s.working && s.queued > 0
    case CountDown(t) => t in s.working
  }

  function Do(producers: set<Thread>, s: State, step: Step): (s': State)
    requires Enabled(producers, s, step)
  {
    match step
    case Push(t) => s.(queued := s.queued + 1, pending := s.pending + {t})
    case PushFails(_) => s
    case PushFailsSilently(t) => s.(lost := s.lost + 1, pending := s.pending + {t})
    case CountUp(t) => s.(counter := s.counter + 1, pending := s.pending - {t})
    case Take(t) => s.(queued := s.queued - 1, working := s.working + {t})
    case CountDown(t) => s.(counter := s.counter - 1, working := s.working - {t})
  }

  predicate Run(producers: set<Thread>, s: State, steps: seq<Step>)
    decreases |steps|
  {
    steps == [] || (Enabled(producers, s, steps[0]) && Run(producers, Do(producers, s, steps[0]), steps[1..]))
  }

  function After(producers: set<Thread>, s: State, steps: seq<Step>): (s': State)
    requires Run(producers, s, steps)
    decreases |steps|
  {
    if steps == [] then s else After(producers, Do(producers, s, steps[0]), steps[1..])
  }

  /** Messages sent and not yet completely processed. */
  function Backlog(s: State): (n: nat) { s.queued + |s.working| }

  predicate Inv(producers: set<Thread>, s: State) {
    s.pending <= producers && s.counter == Backlog(s) + s.lost - |s.pending|
  }

  lemma {:induction false} RunKeepsInv(producers: set<Thread>, s: State, steps: seq<Step>)
    requires Inv(producers, s) && Run(producers, s, steps)
    ensures Inv(producers, After(producers, s, steps))
    decreases |steps|
  {
    if steps != [] {
      RunKeepsInv(producers, Do(producers, s, steps[0]), steps[1..]);
    }
  }

  lemma SubsetSize(a: set<Thread>, b: set<Thread>)
    requires a <= b
    ensures |a| <= |b|
  {
    assert b == a + (b - a);
  }

  /** In every interleaving the counter is the backlog, less the sends not yet counted. */
  lemma CounterIsExact(producers: set<Thread>, steps: seq<Step>)
    requires Run(producers, START, steps)
    ensures var s := After(producers, START, steps);
            s.counter == Backlog(s) + s.lost - |s.pending| >= -|producers|
  {
    RunKeepsInv(producers, START, steps);
    SubsetSize(After(producers, START, steps).pending, producers);
  }

  /** Every failed send is noticed, and then not counted. */
  predicate SendsChecked(steps: seq<Step>) {
    forall i :: 0 <= i < |steps| ==> !steps[i].PushFailsSilently?
  }

  lemma {:induction false} LostIsSilent(producers: set<Thread>, s: State, steps: seq<Step>)
    requires Run(producers, s, steps)
    ensures After(producers, s, steps).lost >= s.lost
    ensures After(producers, s, steps).lost == s.lost <==> SendsChecked(steps)
    decreases |steps|
  {
    if steps != [] {
      LostIsSilent(producers, Do(producers, s, steps[0]), steps[1..]);
      assert forall i :: 0 < i < |steps| ==> steps[i] == steps[1..][i - 1];
      assert SendsChecked(steps) <==> !steps[0].PushFailsSilently? && SendsChecked(steps[1..]);
    }
  }

  /**
   * For any producers, in particular the parsers and `queued_inserts`: the
   * counter is the backlog less the sends not yet counted if and only if no
   * failed send went unnoticed.
   */
  lemma CountsNoFailures(producers: set<Thread>, steps: seq<Step>)
    requires Run(producers, START, steps)
    ensures var s := After(producers, START, steps);
            s.counter == Backlog(s) - |s.pending| <==> SendsChecked(steps)
  {
    RunKeepsInv(producers, START, steps);
    LostIsSilent(producers, START, steps);
  }

  /** An exception or event whose send fails is counted for ever. */
  lemma UnnoticedFailureStays(producers: set<Thread>, p: Thread)
    requires p in producers
    ensures var steps := [PushFailsSilently(p), CountUp(p)];
            && Run(producers, START, steps)
            && After(producers, START, steps).counter == 1 && Backlog(After(producers, START, steps)) == 0
  {
    var s1 := Do(producers, START, PushFailsSilently(p));
    assert [PushFailsSilently(p), CountUp(p)][1..] == [CountUp(p)];
    assert Run(producers, s1, [CountUp(p)]) && After(producers, s1, [CountUp(p)]) == Do(producers, s1, CountUp(p));
  }

  /**
   * `queued_updates` has one producer, the controller, which checks all its
   * sends and samples the counter between them: it sees exactly the backlog.
   */
  lemma ControllerSample(controller: Thread, steps: seq<Step>)
    requires Run({controller}, START, steps) && SendsChecked(steps)
    requires controller !in After({controller}, START, steps).pending
    ensures var s := After({controller}, START, steps); s.counter == Backlog(s)
  {
    RunKeepsInv({controller}, START, steps);
    assert After({controller}, START, steps).pending == {};
    LostIsSilent({controller}, START, steps);
  }

  // ----- the lower bound is reached

  lemma {:induction false} RunExtends(producers: set<Thread>, s: State, a: seq<Step>, b: seq<Step>)
    requires Run(producers, s, a) && Run(producers, After(producers, s, a), b)
    ensures Run(producers, s, a + b)
    ensures After(producers, s, a + b) == After(producers, After(producers, s, a), b)
    decreases |a|
  {
    if a == [] {
      assert a + b == b;
    } else {
      assert (a + b)[0] == a[0] && (a + b)[1..] == a[1..] + b;
      RunExtends(producers, Do(producers, s, a[0]), a[1..], b);
    }
  }

  /** One producer sends, and a fast consumer is done with the message before it is counted. */
  lemma Overtake(producers: set<Thread>, s: State, t: Thread, consumer: Thread)
    requires t in producers && t !in s.pending && s.working == {} && s.queued == 0
    ensures var turn := [Push(t), Take(consumer), CountDown(consumer)];
            && Run(producers, s, turn)
            && After(producers, s, turn) == s.(counter := s.counter - 1, pending := s.pending + {t})
  {
    var s1 := Do(producers, s, Push(t));
    var s2 := Do(producers, s1, Take(consumer));
    var s3 := Do(producers, s2, CountDown(consumer));
    assert [Push(t), Take(consumer), CountDown(consumer)][1..] == [Take(consumer), CountDown(consumer)];
    assert [Take(consumer), CountDown(consumer)][1..] == [CountDown(consumer)];
    assert Run(producers, s2, [CountDown(consumer)]) && After(producers, s2, [CountDown(consumer)]) == s3;
    assert s3 == s.(counter := s.counter - 1, pending := s.pending + {t}) by {
      assert {consumer} - {consumer} == {};
    }
  }

  /** Any group of producers can be overtaken at once, so the counter can fall to minus the number of producers. */
  lemma {:induction false} BoundIsReached(producers: set<Thread>, ahead: set<Thread>, consumer: Thread)
    returns (steps: seq<Step>)
    requires ahead <= producers
    ensures Run(producers, START, steps)
    ensures After(producers, START, steps) == State(-|ahead|, 0, {}, ahead, 0)
    decreases |ahead|
  {
    if ahead == {} {
      steps := [];
    } else {
      var t :| t in ahead;
      var before := BoundIsReached(producers, ahead - {t}, consumer);
      var turn := [Push(t), Take(consumer), CountDown(consumer)];
      Overtake(producers, After(producers, START, before), t, consumer);
      RunExtends(producers, START, before, turn);
      assert (ahead - {t}) + {t} == ahead;
      steps := before + turn;
    }
  }
}
