/** What every run of the request-id tracker keeps. */
module TrackerRuns {
  import opened Options
  import opened OrderedMap
  import opened TrackerModel

  // ----- runs

  function Exec(s: State, es: seq<Event>): (r: State)
    decreases |es|
  {
    if es == [] then s else Exec(Step(s, es[0]).0, es[1..])
  }

  function Outcomes(s: State, es: seq<Event>): (os: seq<Outcome>)
    ensures |os| == |es|
    decreases |es|
  {
    if es == [] then [] else var (s', o) := Step(s, es[0]); [o] + Outcomes(s', es[1..])
  }

  /** The clock is a positive unsigned 64-bit number that never goes backwards. */
  ghost predicate Legal(s: State, e: Event) {
    e.Clock? ==> s.now <= e.time < TWO_TO_64
  }

  ghost predicate LegalRun(s: State, es: seq<Event>)
    decreases |es|
  {
    es == [] || (Legal(s, es[0]) && LegalRun(Step(s, es[0]).0, es[1..]))
  }

  lemma ExecCons(s: State, e: Event, es: seq<Event>)
    ensures Exec(s, [e] + es) == Exec(Step(s, e).0, es)
    ensures Outcomes(s, [e] + es) == [Step(s, e).1] + Outcomes(Step(s, e).0, es)
    ensures LegalRun(s, [e] + es) <==> Legal(s, e) && LegalRun(Step(s, e).0, es)
  {
    assert ([e] + es)[1..] == es;
  }

  lemma {:induction false} ExecConcat(s: State, a: seq<Event>, b: seq<Event>)
    ensures Exec(s, a + b) == Exec(Exec(s, a), b)
    ensures Outcomes(s, a + b) == Outcomes(s, a) + Outcomes(Exec(s, a), b)
    ensures LegalRun(s, a + b) <==> LegalRun(s, a) && LegalRun(Exec(s, a), b)
    decreases |a|
  {
    if a == [] {
      assert a + b == b;
    } else {
      assert (a + b)[1..] == a[1..] + b;
      ExecConcat(Step(s, a[0]).0, a[1..], b);
    }
  }

  // ----- the invariant

  ghost predicate SortedByAge(es: Entries<int>, now: int) {
    && (forall i, j :: 0 <= i < j < |es| ==> es[i].1 <= es[j].1)
    && (forall i :: 0 <= i < |es| ==> es[i].1 <= now)
  }

  /** A key is in at most one of the three rings. */
  ghost predicate DisjointAt(uuids: Entries<int>, failures: Entries<Parked>, successes: Entries<int>, k: string) {
    && !(Has(uuids, k) && Has(failures, k))
    && !(Has(uuids, k) && Has(successes, k))
    && !(Has(failures, k) && Has(successes, k))
  }

  ghost predicate Inv(s: State) {
    && 0 < s.now < TWO_TO_64
    && s.threshold == Threshold(s.now)
    && UniqueKeys(s.uuids) && UniqueKeys(s.failures) && UniqueKeys(s.successes)
    && (forall k :: DisjointAt(s.uuids, s.failures, s.successes, k))
    && SortedByAge(s.uuids, s.now)
    && SortedByAge(Ages(s.failures), s.now)
    && (forall i :: 0 <= i < |s.successes| ==> s.successes[i].1 <= s.now)
  }

  lemma SuffixFinds<V>(es: Entries<V>, n: nat, k: string)
    requires UniqueKeys(es) && n <= |es|
    ensures UniqueKeys(es[n..])
    ensures Has(es[n..], k) ==> Find(es[n..], k) == Find(es, k)
    ensures Has(es, k) && !Has(es[n..], k) ==> exists i :: 0 <= i < n && es[i].0 == k && Find(es, k) == Some(es[i].1)
  {
    FindIsMembership(es, k);
    FindIsMembership(es[n..], k);
    if Has(es, k) {
      var i :| 0 <= i < |es| && es[i].0 == k;
      if i >= n { assert es[n..][i - n] == es[i]; }
    }
  }

  /** Head-only expiry never touches a fresh entry, whatever the order of the ring. */
  lemma CleanFinds(es: Entries<int>, threshold: int, k: string)
    requires UniqueKeys(es)
    ensures var rest := es[Stale(es, threshold)..];
            && UniqueKeys(rest)
            && (Has(rest, k) ==> Find(rest, k) == Find(es, k))
            && (Has(es, k) && Find(es, k).value >= threshold ==> Find(rest, k) == Find(es, k))
  {
    SuffixFinds(es, Stale(es, threshold), k);
    StalePrefix(es, threshold);
  }

  lemma CleanFindsParked(es: Entries<Parked>, threshold: int, k: string)
    requires UniqueKeys(es)
    ensures var rest := es[StaleParked(es, threshold)..];
            && UniqueKeys(rest)
            && (Has(rest, k) ==> Find(rest, k) == Find(es, k))
            && (Has(es, k) && Find(es, k).value.created >= threshold ==> Find(rest, k) == Find(es, k))
  {
    SuffixFinds(es, StaleParked(es, threshold), k);
    StalePrefix(Ages(es), threshold);
  }

  function Fresh(es: Entries<int>, threshold: int): (r: Entries<int>) {
    if es == [] then []
    else if es[0].1 < threshold then Fresh(es[1..], threshold)
    else [es[0]] + Fresh(es[1..], threshold)
  }

  /** On a ring sorted by age, head-only expiry is the same as filtering out every stale entry. */
  lemma {:induction false} CleanIsFilter(es: Entries<int>, threshold: int, now: int)
    requires SortedByAge(es, now)
    ensures es[Stale(es, threshold)..] == Fresh(es, threshold)
  {
    if es == [] {
    } else if es[0].1 < threshold {
      CleanIsFilter(es[1..], threshold, now);
    } else {
      CleanIsFilter(es[1..], threshold, now);
      assert |es| > 1 ==> es[1].1 >= threshold;
      assert es == [es[0]] + es[1..];
    }
  }

  lemma CleanKeepsInv(s: State)
    requires Inv(s)
    ensures Inv(Clean(s))
  {
    var c := Clean(s);
    forall k ensures DisjointAt(c.uuids, c.failures, c.successes, k) {
      assert DisjointAt(s.uuids, s.failures, s.successes, k);
      CleanFinds(s.uuids, s.threshold, k);
      CleanFindsParked(s.failures, s.threshold, k);
      CleanFinds(s.successes, s.threshold, k);
    }
    assert Ages(c.failures) == Ages(s.failures)[StaleParked(s.failures, s.threshold)..];
  }

  lemma AddKeepsInv(s: State, u: string)
    requires Inv(s)
    ensures Inv(AddStep(s, u).0)
  {
    var r := AddStep(s, u).0;
    if r != s {
      assert DisjointAt(s.uuids, s.failures, s.successes, u);
      UniqueAppend(s.uuids, u, s.now);
      FindDrop(s.failures, u, u);
      forall k ensures DisjointAt(r.uuids, r.failures, r.successes, k) {
        assert DisjointAt(s.uuids, s.failures, s.successes, k);
        FindAppend(s.uuids, u, s.now, k);
        FindDrop(s.failures, u, k);
      }
      DropKeepsSortedParked(s.failures, s.now, u);
    }
  }

  lemma RemoveKeepsSorted(es: Entries<int>, now: int, i: nat)
    requires SortedByAge(es, now) && i < |es|
    ensures SortedByAge(es[..i] + es[i+1..], now)
  {
    var rest := es[..i] + es[i+1..];
    assert forall j :: 0 <= j < |rest| ==> rest[j] == es[if j < i then j else j + 1];
  }

  lemma DropKeepsSorted(es: Entries<int>, now: int, k: string)
    requires UniqueKeys(es) && SortedByAge(es, now)
    ensures SortedByAge(Drop(es, k), now)
  {
    FindIsMembership(es, k);
    if Has(es, k) {
      var i :| 0 <= i < |es| && es[i].0 == k;
      DropAt(es, i);
      RemoveKeepsSorted(es, now, i);
    } else {
      DropAbsent(es, k);
    }
  }

  lemma AgesOfRest(es: Entries<Parked>, i: nat)
    requires i < |es|
    ensures Ages(es[..i] + es[i+1..]) == Ages(es)[..i] + Ages(es)[i+1..]
  {
    var rest := es[..i] + es[i+1..];
    assert forall j :: 0 <= j < |rest| ==> rest[j] == es[if j < i then j else j + 1];
  }

  lemma DropKeepsSortedParked(es: Entries<Parked>, now: int, k: string)
    requires UniqueKeys(es) && SortedByAge(Ages(es), now)
    ensures SortedByAge(Ages(Drop(es, k)), now)
  {
    FindIsMembership(es, k);
    if Has(es, k) {
      var i :| 0 <= i < |es| && es[i].0 == k;
      DropAt(es, i);
      AgesOfRest(es, i);
      RemoveKeepsSorted(Ages(es), now, i);
    } else {
      DropAbsent(es, k);
    }
  }

  lemma DeleteKeepsInv(s: State, u: string, m: Msg)
    requires Inv(s)
    ensures Inv(DeleteStep(s, u, m).0)
  {
    CleanKeepsInv(s);
    var c, r := Clean(s), DeleteStep(s, u, m).0;
    match Find(c.uuids, u)
    case Some(stamp) =>
      FindIsMembership(c.uuids, u);
      assert DisjointAt(c.uuids, c.failures, c.successes, u);
      UniqueAppend(c.successes, u, stamp);
      DropKeepsSorted(c.uuids, s.now, u);
      FindDrop(c.uuids, u, u);
      forall k ensures DisjointAt(r.uuids, r.failures, r.successes, k) {
        assert DisjointAt(c.uuids, c.failures, c.successes, k);
        FindAppend(c.successes, u, stamp, k);
        FindDrop(c.uuids, u, k);
      }
    case None =>
      if !Has(c.successes, u) && !Has(c.failures, u) {
        var p := Parked(s.now, Cleared(m));
        UniqueAppend(c.failures, u, p);
        assert Ages(r.failures) == Ages(c.failures) + [(u, s.now)];
        forall k ensures DisjointAt(r.uuids, r.failures, r.successes, k) {
          assert DisjointAt(c.uuids, c.failures, c.successes, k);
          FindAppend(c.failures, u, p, k);
        }
      }
  }

  lemma StepKeepsInv(s: State, e: Event)
    requires Inv(s) && Legal(s, e)
    ensures Inv(Step(s, e).0) && s.now <= Step(s, e).0.now
  {
    match e
    case Add(u) => AddKeepsInv(s, u);
    case Delete(u, m) => DeleteKeepsInv(s, u, m);
    case Tick => CleanKeepsInv(s);
    case Clock(_) =>
  }

  /** The key sets stay disjoint, stamps stay ordered and the clock never goes back, in every run. */
  lemma {:induction false} RunKeepsInv(s: State, es: seq<Event>)
    requires Inv(s) && LegalRun(s, es)
    ensures Inv(Exec(s, es)) && s.now <= Exec(s, es).now
    decreases |es|
  {
    if es != [] {
      StepKeepsInv(s, es[0]);
      RunKeepsInv(Step(s, es[0]).0, es[1..]);
    }
  }
}
