/**
 * The tracker's promises over whole runs: at-most-once matching, retention
 * bounds, order independence and conservation of requests and messages.
 */
module TrackerTheorems {
  import opened Options
  import opened OrderedMap
  import opened TrackerModel
  import opened TrackerRuns

  // ----- retention and at-most-once matching

  /** Request `u`, added at time `t`, is still remembered as pending or as matched. */
  ghost predicate Kept(s: State, u: string, t: int) {
    Find(s.uuids, u) == Some(t) || Find(s.successes, u) == Some(t)
  }

  ghost predicate IsMatch(e: Event, o: Outcome, u: string) {
    e.Delete? && e.uuid == u && o.Matched?
  }

  /** How many deletes of `u` answer 1 in a run. */
  ghost function MatchCount(s: State, es: seq<Event>, u: string): (n: nat)
    decreases |es|
  {
    if es == [] then 0
    else
      var (s', o) := Step(s, es[0]);
      (if IsMatch(es[0], o, u) then 1 else 0) + MatchCount(s', es[1..], u)
  }

  lemma CleanKeeps(s: State, u: string, t: int)
    requires Inv(s) && EXPIRE_THRESHOLD_MS <= s.now <= t + EXPIRE_THRESHOLD_MS
    ensures Find(s.uuids, u) == Some(t) ==> Find(Clean(s).uuids, u) == Some(t)
    ensures Find(s.successes, u) == Some(t) ==> Find(Clean(s).successes, u) == Some(t)
    ensures Has(s.failures, u) && Find(s.failures, u).value.created == t ==>
              Find(Clean(s).failures, u) == Find(s.failures, u)
  {
    CleanFinds(s.uuids, s.threshold, u);
    CleanFinds(s.successes, s.threshold, u);
    CleanFindsParked(s.failures, s.threshold, u);
  }

  /** One step keeps a remembered request: only its own match moves it, from pending to matched. */
  lemma StepKeeps(s: State, e: Event, u: string, t: int)
    requires Inv(s) && Legal(s, e) && Kept(s, u, t)
    requires EXPIRE_THRESHOLD_MS <= s.now && Step(s, e).0.now <= t + EXPIRE_THRESHOLD_MS
    ensures Find(Step(s, e).0.uuids, u) ==
            if IsMatch(e, Step(s, e).1, u) then None else Find(s.uuids, u)
    ensures Kept(Step(s, e).0, u, t)
    ensures IsMatch(e, Step(s, e).1, u) ==> Find(s.uuids, u) == Some(t)
    ensures e == Add(u) ==> Step(s, e) == (s, Refused)
  {
    assert DisjointAt(s.uuids, s.failures, s.successes, u);
    StepKeepsInv(s, e);
    match e
    case Add(v) =>
      FindAppend(s.uuids, v, s.now, u);
    case Delete(v, m) =>
      CleanKeeps(s, u, t);
      CleanKeepsInv(s);
      CleanFinds(s.uuids, s.threshold, u);
      var c := Clean(s);
      assert DisjointAt(c.uuids, c.failures, c.successes, u);
      FindDrop(c.uuids, v, u);
      if Has(c.uuids, v) {
        FindAppend(c.successes, v, Find(c.uuids, v).value, u);
      }
    case Tick =>
      CleanKeeps(s, u, t);
      CleanFinds(s.uuids, s.threshold, u);
    case Clock(_) =>
  }

  /** Until the clock passes `t + EXPIRE_THRESHOLD_MS` a remembered request is pending or was matched once. */
  lemma {:induction false} RunKeeps(s: State, es: seq<Event>, u: string, t: int)
    requires Inv(s) && LegalRun(s, es) && Kept(s, u, t)
    requires EXPIRE_THRESHOLD_MS <= s.now && Exec(s, es).now <= t + EXPIRE_THRESHOLD_MS
    ensures Kept(Exec(s, es), u, t)
    ensures MatchCount(s, es, u) == (if Has(s.uuids, u) then 1 else 0) - (if Has(Exec(s, es).uuids, u) then 1 else 0)
    decreases |es|
  {
    if es != [] {
      var s' := Step(s, es[0]).0;
      StepKeepsInv(s, es[0]);
      RunKeepsInv(s', es[1..]);
      StepKeeps(s, es[0], u, t);
      RunKeeps(s', es[1..], u, t);
    }
  }

  /** In the run `pre`, `Add(u)`, `mid`: the add was accepted and its time is not yet over. */
  ghost predicate AddedAndLive(t0: int, pre: seq<Event>, u: string, mid: seq<Event>) {
    var a := Exec(Init(t0), pre);
    && LegalRun(Init(t0), pre + [Add(u)] + mid)
    && Step(a, Add(u)).1 != Refused
    && Exec(Init(t0), pre + [Add(u)] + mid).now <= a.now + EXPIRE_THRESHOLD_MS
  }

  /** At most once: no second add is accepted, and one delete at most answers 1. */
  lemma AtMostOnce(t0: int, pre: seq<Event>, u: string, mid: seq<Event>)
    requires EXPIRE_THRESHOLD_MS <= t0 < TWO_TO_64
    requires AddedAndLive(t0, pre, u, mid)
    ensures var a := Exec(Init(t0), pre);
            var b := Exec(Init(t0), pre + [Add(u)]);
            var z := Exec(Init(t0), pre + [Add(u)] + mid);
            && Kept(z, u, a.now)
            && Step(z, Add(u)) == (z, Refused)
            && MatchCount(b, mid, u) == (if Has(z.successes, u) then 1 else 0)
            && (Has(z.successes, u) ==> forall m :: !Step(z, Delete(u, m)).1.Matched?)
  {
    var a := Exec(Init(t0), pre);
    var b := Exec(Init(t0), pre + [Add(u)]);
    var z := Exec(Init(t0), pre + [Add(u)] + mid);
    ExecConcat(Init(t0), pre + [Add(u)], mid);
    ExecConcat(Init(t0), pre, [Add(u)]);
    RunKeepsInv(Init(t0), pre);
    assert b == Step(a, Add(u)).0;
    StepKeepsInv(a, Add(u));
    assert DisjointAt(a.uuids, a.failures, a.successes, u);
    FindAppend(a.uuids, u, a.now, u);
    RunKeeps(b, mid, u, a.now);
    RunKeepsInv(b, mid);
    StepKeeps(z, Add(u), u, a.now);
    assert DisjointAt(z.uuids, z.failures, z.successes, u);
    if Has(z.successes, u) {
      forall m ensures !Step(z, Delete(u, m)).1.Matched? {
        StepKeeps(z, Delete(u, m), u, a.now);
      }
    }
  }

  ghost predicate RetainedOn(t0: int, pre: seq<Event>, u: string, mid: seq<Event>) {
    AddedAndLive(t0, pre, u, mid) ==> Kept(Exec(Init(t0), pre + [Add(u)] + mid), u, Exec(Init(t0), pre).now)
  }

  /** Retention holds exactly when the clock starts at or after the threshold: below it the subtraction wraps. */
  lemma RetentionNeedsClock(t0: int)
    requires 0 < t0 < TWO_TO_64
    ensures (forall pre, u, mid :: RetainedOn(t0, pre, u, mid)) <==> 300_000 <= t0
  {
    if EXPIRE_THRESHOLD_MS <= t0 {
      forall pre, u, mid ensures RetainedOn(t0, pre, u, mid) {
        if AddedAndLive(t0, pre, u, mid) { AtMostOnce(t0, pre, u, mid); }
      }
    } else {
      WrappedThresholdForgets(t0, "u");
      assert !RetainedOn(t0, [], "u", [Tick]);
    }
  }

  lemma WrappedSteps(t0: int, u: string)
    requires 0 < t0 < EXPIRE_THRESHOLD_MS
    ensures var b := Step(Init(t0), Add(u));
            var c := Step(b.0, Tick).0;
            b.1 == Accepted && c.now == t0 && c.uuids == [] && c.failures == [] && c.successes == []
  {
    var b := Step(Init(t0), Add(u)).0;
    assert b.uuids == [(u, t0)];
  }

  lemma TwoEvents(s: State, a: Event, b: Event)
    ensures Exec(s, [a] + ([b] + [])) == Step(Step(s, a).0, b).0
    ensures LegalRun(s, [a] + ([b] + [])) <==> Legal(s, a) && Legal(Step(s, a).0, b)
  {
    ExecCons(s, a, [b] + []);
    ExecCons(Step(s, a).0, b, []);
  }

  lemma WrappedRun(t0: int, u: string)
    requires 0 < t0 < EXPIRE_THRESHOLD_MS
    ensures var z := Exec(Init(t0), [] + [Add(u)] + [Tick]);
            && LegalRun(Init(t0), [] + [Add(u)] + [Tick])
            && z.now == t0 && z.uuids == [] && z.failures == [] && z.successes == []
  {
    var b := Step(Init(t0), Add(u)).0;
    WrappedSteps(t0, u);
    TwoEvents(Init(t0), Add(u), Tick);
    assert [] + [Add(u)] + [Tick] == [Add(u)] + ([Tick] + []);
  }

  /** With a clock below the threshold, the first clean forgets a request that was added this very moment. */
  lemma WrappedThresholdForgets(t0: int, u: string)
    requires 0 < t0 < EXPIRE_THRESHOLD_MS
    ensures AddedAndLive(t0, [], u, [Tick])
    ensures !Kept(Exec(Init(t0), [] + [Add(u)] + [Tick]), u, t0)
    ensures Step(Exec(Init(t0), [] + [Add(u)] + [Tick]), Add(u)).1 == Accepted
  {
    WrappedRun(t0, u);
    WrappedSteps(t0, u);
    assert Exec(Init(t0), []) == Init(t0);
  }

  // ----- the successes ring

  /** The clock at the latest match of each request: `h` extended along a run. */
  ghost function MatchedAt(s: State, es: seq<Event>, h: map<string, int>): (r: map<string, int>)
    decreases |es|
  {
    if es == [] then h else MatchedAt(Step(s, es[0]).0, es[1..], MatchedNext(s, es[0], h))
  }

  ghost function MatchedNext(s: State, e: Event, h: map<string, int>): (r: map<string, int>) {
    if e.Delete? && Step(s, e).1.Matched? then h[e.uuid := s.now] else h
  }

  /** A ring ordered by match time, in which every match came within the threshold of its add. */
  ghost predicate InMatchOrder(es: Entries<int>, h: map<string, int>, now: int) {
    && (forall i :: 0 <= i < |es| ==>
          es[i].0 in h && es[i].1 <= h[es[i].0] <= es[i].1 + EXPIRE_THRESHOLD_MS && h[es[i].0] <= now)
    && (forall i, j :: 0 <= i < j < |es| ==>
          es[i].0 in h && es[j].0 in h && h[es[i].0] <= h[es[j].0])
  }

  ghost predicate MatchOrder(s: State, h: map<string, int>) { InMatchOrder(s.successes, h, s.now) }

  /** Every remaining match is at most the threshold ago. */
  ghost predicate MatchedRecently(es: Entries<int>, h: map<string, int>, now: int) {
    forall i :: 0 <= i < |es| ==> es[i].0 in h && now <= h[es[i].0] + EXPIRE_THRESHOLD_MS
  }

  /** A new match goes to the end of the ring and is the latest. */
  lemma AppendMatch(es: Entries<int>, h: map<string, int>, now: int, u: string, t: int)
    requires InMatchOrder(es, h, now) && MatchedRecently(es, h, now) && t <= now <= t + EXPIRE_THRESHOLD_MS
    requires forall i :: 0 <= i < |es| ==> es[i].0 != u
    ensures InMatchOrder(es + [(u, t)], h[u := now], now)
    ensures MatchedRecently(es + [(u, t)], h[u := now], now)
  {
  }

  lemma CleanMatchOrder(s: State, h: map<string, int>)
    requires Inv(s) && MatchOrder(s, h)
    ensures MatchOrder(Clean(s), h)
    ensures MatchedRecently(Clean(s).successes, h, s.now)
  {
    var c := Clean(s);
    StalePrefix(s.successes, s.threshold);
    assert MatchOrder(c, h);
    if c.successes != [] {
      var (k, t) := c.successes[0];
      assert s.threshold <= t <= h[k];
    }
  }

  lemma MatchKeepsOrder(s: State, u: string, m: Msg, h: map<string, int>)
    requires Inv(s) && MatchOrder(s, h)
    requires Step(s, Delete(u, m)).1.Matched?
    ensures MatchOrder(Step(s, Delete(u, m)).0, h[u := s.now])
    ensures MatchedRecently(Step(s, Delete(u, m)).0.successes, h[u := s.now], s.now)
  {
    var c := Clean(s);
    CleanMatchOrder(s, h);
    CleanKeepsInv(s);
    FindIsMembership(c.uuids, u);
    CleanIsFresh(s.uuids, s.threshold, s.now);
    assert DisjointAt(c.uuids, c.failures, c.successes, u);
    FindIsMembership(c.successes, u);
    AppendMatch(c.successes, h, s.now, u, Find(c.uuids, u).value);
  }

  lemma CleanIsFresh(es: Entries<int>, threshold: int, now: int)
    requires SortedByAge(es, now)
    ensures forall i :: Stale(es, threshold) <= i < |es| ==> es[i].1 >= threshold
  {
    StalePrefix(es, threshold);
  }

  lemma DeleteMatchOrder(s: State, u: string, m: Msg, h: map<string, int>)
    requires Inv(s) && MatchOrder(s, h)
    ensures var e := Delete(u, m);
            && MatchOrder(Step(s, e).0, MatchedNext(s, e, h))
            && MatchedRecently(Step(s, e).0.successes, MatchedNext(s, e, h), s.now)
  {
    if Step(s, Delete(u, m)).1.Matched? {
      MatchKeepsOrder(s, u, m, h);
    } else {
      CleanMatchOrder(s, h);
    }
  }

  lemma StepMatchOrder(s: State, e: Event, h: map<string, int>)
    requires Inv(s) && Legal(s, e) && MatchOrder(s, h)
    ensures MatchOrder(Step(s, e).0, MatchedNext(s, e, h))
    ensures e.Delete? || e.Tick? ==> MatchedRecently(Step(s, e).0.successes, MatchedNext(s, e, h), s.now)
  {
    match e
    case Add(_) =>
    case Delete(u, m) => DeleteMatchOrder(s, u, m, h);
    case Tick => CleanMatchOrder(s, h);
    case Clock(_) =>
  }

  lemma {:induction false} RunMatchOrder(s: State, es: seq<Event>, h: map<string, int>)
    requires Inv(s) && LegalRun(s, es) && MatchOrder(s, h)
    ensures MatchOrder(Exec(s, es), MatchedAt(s, es, h))
    decreases |es|
  {
    if es != [] {
      StepKeepsInv(s, es[0]);
      StepMatchOrder(s, es[0], h);
      RunMatchOrder(Step(s, es[0]).0, es[1..], MatchedNext(s, es[0], h));
    }
  }

  lemma {:induction false} MatchedAtConcat(s: State, a: seq<Event>, b: seq<Event>, h: map<string, int>)
    ensures MatchedAt(s, a + b, h) == MatchedAt(Exec(s, a), b, MatchedAt(s, a, h))
    decreases |a|
  {
    if a == [] {
      assert a + b == b;
    } else {
      assert (a + b)[1..] == a[1..] + b;
      MatchedAtConcat(Step(s, a[0]).0, a[1..], b, MatchedNext(s, a[0], h));
    }
  }

  lemma LastStep(t0: int, es: seq<Event>, e: Event)
    requires LegalRun(Init(t0), es + [e])
    ensures var s, h := Exec(Init(t0), es), MatchedAt(Init(t0), es, map[]);
            && LegalRun(Init(t0), es) && Legal(s, e)
            && Exec(Init(t0), es + [e]) == Step(s, e).0
            && MatchedAt(Init(t0), es + [e], map[]) == MatchedNext(s, e, h)
  {
    var s, h := Exec(Init(t0), es), MatchedAt(Init(t0), es, map[]);
    ExecConcat(Init(t0), es, [e]);
    MatchedAtConcat(Init(t0), es, [e], map[]);
    assert Exec(s, [e]) == Step(s, e).0;
    assert MatchedAt(s, [e], h) == MatchedNext(s, e, h);
  }

  lemma StepInOrder(s: State, e: Event, h: map<string, int>)
    requires Inv(s) && Legal(s, e) && MatchOrder(s, h) && (e.Delete? || e.Tick?)
    ensures var z, matched := Step(s, e).0, MatchedNext(s, e, h);
            InMatchOrder(z.successes, matched, z.now) && MatchedRecently(z.successes, matched, z.now)
  {
    StepMatchOrder(s, e, h);
  }

  lemma RunInOrder(t0: int, es: seq<Event>)
    requires 0 < t0 < TWO_TO_64 && LegalRun(Init(t0), es)
    ensures Inv(Exec(Init(t0), es)) && MatchOrder(Exec(Init(t0), es), MatchedAt(Init(t0), es, map[]))
  {
    RunKeepsInv(Init(t0), es);
    RunMatchOrder(Init(t0), es, map[]);
  }

  lemma LastStepInOrder(t0: int, es: seq<Event>, e: Event)
    requires 0 < t0 < TWO_TO_64
    requires LegalRun(Init(t0), es + [e]) && (e.Delete? || e.Tick?)
    ensures var z, matched := Exec(Init(t0), es + [e]), MatchedAt(Init(t0), es + [e], map[]);
            InMatchOrder(z.successes, matched, z.now) && MatchedRecently(z.successes, matched, z.now)
  {
    LastStep(t0, es, e);
    RunInOrder(t0, es);
    StepInOrder(Exec(Init(t0), es), e, MatchedAt(Init(t0), es, map[]));
  }

  /** After every clean each remembered success was matched, and its request added, recently enough. */
  lemma SuccessesAreRecent(t0: int, es: seq<Event>, e: Event)
    requires 0 < t0 < TWO_TO_64
    requires LegalRun(Init(t0), es + [e]) && (e.Delete? || e.Tick?)
    ensures var z := Exec(Init(t0), es + [e]);
            var matched := MatchedAt(Init(t0), es + [e], map[]);
            forall i :: 0 <= i < |z.successes| ==>
              var (u, added) := z.successes[i];
              && u in matched
              && matched[u] <= z.now <= matched[u] + EXPIRE_THRESHOLD_MS
              && added <= matched[u] <= added + EXPIRE_THRESHOLD_MS
              && z.now <= added + 2 * EXPIRE_THRESHOLD_MS
  {
    LastStepInOrder(t0, es, e);
  }

  lemma UnsortedSteps(m: Msg)
    ensures var t := EXPIRE_THRESHOLD_MS;
            var s3 := Step(Step(Step(Init(t), Add("a")).0, Clock(t + 1)).0, Add("b")).0;
            s3.uuids == [("a", t), ("b", t + 1)] && s3.failures == [] && s3.successes == [] && s3.threshold == 1
  {
    assert "a"[0] != "b"[0];
    var s2 := Step(Step(Init(EXPIRE_THRESHOLD_MS), Add("a")).0, Clock(EXPIRE_THRESHOLD_MS + 1)).0;
    assert s2.uuids == [("a", EXPIRE_THRESHOLD_MS)];
    FindIsMembership(s2.uuids, "b");
  }

  lemma UnsortedMatches(s: State, t: int, m: Msg)
    requires 1 <= t && s.uuids == [("a", t), ("b", t + 1)]
    requires s.failures == [] && s.successes == [] && s.threshold == 1
    ensures Step(Step(s, Delete("b", m)).0, Delete("a", m)).0.successes == [("b", t + 1), ("a", t)]
  {
    assert "a"[0] != "b"[0];
    assert Clean(s) == s;
    DropAt(s.uuids, 1);
    FindIsMembership(s.uuids, "b");
    assert s.uuids[1].0 == "b";
    var s' := Step(s, Delete("b", m)).0;
    assert s.uuids[1..] == [("b", t + 1)];
    assert s'.successes == [("b", t + 1)] && s'.uuids == [("a", t)];
    assert Clean(s') == s';
  }

  /** The ring is not sorted by its stamps: requests matched in the other order than they were added. */
  lemma SuccessesNeedNotBeSorted(m: Msg)
    ensures Exec(Init(EXPIRE_THRESHOLD_MS),
                 [Add("a")] + ([Clock(EXPIRE_THRESHOLD_MS + 1)] +
                               ([Add("b")] + ([Delete("b", m)] + [Delete("a", m)])))).successes
            == [("b", EXPIRE_THRESHOLD_MS + 1), ("a", EXPIRE_THRESHOLD_MS)]
  {
    var t := EXPIRE_THRESHOLD_MS;
    var s1 := Step(Init(t), Add("a")).0;
    var s2 := Step(s1, Clock(t + 1)).0;
    var s3 := Step(s2, Add("b")).0;
    var s4 := Step(s3, Delete("b", m)).0;
    UnsortedSteps(m);
    UnsortedMatches(s3, t, m);
    var e4 := [Delete("a", m)];
    var e3 := [Delete("b", m)] + e4;
    var e2 := [Add("b")] + e3;
    var e1 := [Clock(t + 1)] + e2;
    ExecCons(Init(t), Add("a"), e1);
    ExecCons(s1, Clock(t + 1), e2);
    ExecCons(s2, Add("b"), e3);
    ExecCons(s3, Delete("b", m), e4);
    assert e4 == [Delete("a", m)] + [];
    ExecCons(s4, Delete("a", m), []);
  }
}
