/**
 * Conservation over whole tracker runs: every request and every parked
 * message is accounted for, and late backends do not change the result.
 */
module TrackerLedger {
  import opened Options
  import opened OrderedMap
  import opened TrackerModel
  import opened TrackerRuns
  import opened TrackerTheorems

  // ----- requests

  function Plus(a: Counters, b: Counters): (c: Counters) {
    Counters(a.added + b.added, a.deleted + b.deleted, a.expired + b.expired, a.failed + b.failed,
             a.duplicates + b.duplicates)
  }

  /** The counters summed over all reports of a run; a report resets them. */
  function Reported(os: seq<Outcome>): (c: Counters) {
    if os == [] then ZERO
    else if os[0].Report? then Plus(os[0].counters, Reported(os[1..]))
    else Reported(os[1..])
  }

  function CountDeletes(es: seq<Event>): (n: nat) {
    if es == [] then 0 else (if es[0].Delete? then 1 else 0) + CountDeletes(es[1..])
  }

  function CountForwarded(os: seq<Outcome>): (n: nat) {
    if os == [] then 0 else (if os[0].AcceptedLate? then 1 else 0) + CountForwarded(os[1..])
  }

  lemma StepLedger(s: State, e: Event)
    requires Inv(s)
    ensures var (s', o) := Step(s, e);
            var c := if o.Report? then o.counters else s'.counters;
            && c.added - s.counters.added ==
               c.deleted - s.counters.deleted + c.expired - s.counters.expired + |s'.uuids| - |s.uuids|
            && CountDeletes([e]) ==
               c.deleted - s.counters.deleted + c.duplicates - s.counters.duplicates + c.failed - s.counters.failed
               + CountForwarded([o]) + |s'.failures| - |s.failures|
  {
    match e
    case Add(u) => FindDrop(s.failures, u, u);
    case Delete(u, m) =>
      CleanKeepsInv(s);
      FindDrop(Clean(s).uuids, u, u);
    case Tick =>
    case Clock(_) =>
  }

  /** A run's ledger from any state, with the counters it started and ended with. */
  lemma {:induction false} RunLedger(s: State, es: seq<Event>)
    requires Inv(s) && LegalRun(s, es)
    ensures var z := Exec(s, es);
            var os := Outcomes(s, es);
            var c := Plus(Reported(os), z.counters);
            && c.added - s.counters.added ==
               c.deleted - s.counters.deleted + c.expired - s.counters.expired + |z.uuids| - |s.uuids|
            && CountDeletes(es) ==
               c.deleted - s.counters.deleted + c.duplicates - s.counters.duplicates + c.failed - s.counters.failed
               + CountForwarded(os) + |z.failures| - |s.failures|
    decreases |es|
  {
    if es != [] {
      StepKeepsInv(s, es[0]);
      StepLedger(s, es[0]);
      RunLedger(Step(s, es[0]).0, es[1..]);
    }
  }

  /** Over a whole run every accepted add and every delete request is accounted for exactly once. */
  lemma RequestsAreConserved(t0: int, es: seq<Event>)
    requires 0 < t0 < TWO_TO_64 && LegalRun(Init(t0), es)
    ensures var z := Exec(Init(t0), es);
            var os := Outcomes(Init(t0), es);
            var c := Plus(Reported(os), z.counters);
            && c.added == c.deleted + c.expired + |z.uuids|
            && CountDeletes(es) == c.deleted + c.duplicates + c.failed + CountForwarded(os) + |z.failures|
  {
    RunLedger(Init(t0), es);
  }

  // ----- messages

  function ParkedBy(o: Outcome): (ms: seq<Msg>) {
    if o.ParkedNow? then [o.parked] else []
  }

  function ForwardedBy(o: Outcome): (ms: seq<Msg>) {
    if o.AcceptedLate? then [o.forwarded] else []
  }

  function DiscardedBy(o: Outcome): (ms: seq<Msg>) {
    match o
    case Matched(d) => d
    case Duplicate(d) => d
    case ParkedNow(_, d) => d
    case Report(_, d) => d
    case _ => []
  }

  /** All messages that `f` sees in the outcomes of a run. */
  function All(os: seq<Outcome>, f: Outcome -> seq<Msg>): (ms: multiset<Msg>) {
    if os == [] then multiset{} else multiset(f(os[0])) + All(os[1..], f)
  }

  function Waiting(s: State): (ms: multiset<Msg>) {
    multiset(Messages(s.failures))
  }

  lemma CleanMessages(s: State)
    ensures Waiting(s) == multiset(Discarded(s)) + Waiting(Clean(s))
  {
    assert Messages(s.failures) == Discarded(s) + Messages(Clean(s).failures);
  }

  lemma MessagesOfRest(es: Entries<Parked>, i: nat)
    requires i < |es|
    ensures Messages(es[..i] + es[i+1..]) == Messages(es)[..i] + Messages(es)[i+1..]
  {
    var rest := es[..i] + es[i+1..];
    assert forall j :: 0 <= j < |rest| ==> rest[j] == es[if j < i then j else j + 1];
  }

  lemma RemoveOne(ms: seq<Msg>, i: nat)
    requires i < |ms|
    ensures multiset(ms) == multiset{ms[i]} + multiset(ms[..i] + ms[i+1..])
  {
    assert ms == ms[..i] + [ms[i]] + ms[i+1..];
  }

  lemma DropMessage(es: Entries<Parked>, u: string)
    requires UniqueKeys(es) && Has(es, u)
    ensures multiset(Messages(es)) == multiset{Find(es, u).value.msg} + multiset(Messages(Drop(es, u)))
  {
    FindIsMembership(es, u);
    var i :| 0 <= i < |es| && es[i].0 == u;
    DropAt(es, i);
    MessagesOfRest(es, i);
    RemoveOne(Messages(es), i);
  }

  /** One step's account of messages: what was waiting or parked is forwarded, discarded or waiting now. */
  ghost predicate Balanced(s: State, s': State, o: Outcome) {
    Waiting(s) + multiset(ParkedBy(o)) == multiset(ForwardedBy(o)) + multiset(DiscardedBy(o)) + Waiting(s')
  }

  lemma DeleteMessages(s: State, u: string, m: Msg)
    ensures var (s', o) := DeleteStep(s, u, m); Balanced(s, s', o)
  {
    CleanMessages(s);
    DeleteParks(Clean(s), u, m, Discarded(s));
  }

  /** After the clean a delete parks its message or leaves the failures alone. */
  lemma DeleteParks(c: State, u: string, m: Msg, discarded: seq<Msg>)
    ensures var (s', o) := DeleteCleaned(c, u, m, discarded);
            && ForwardedBy(o) == [] && DiscardedBy(o) == discarded
            && Waiting(s') == Waiting(c) + multiset(ParkedBy(o))
  {
    var (s', o) := DeleteCleaned(c, u, m, discarded);
    if o.ParkedNow? {
      assert Messages(s'.failures) == Messages(c.failures) + [Cleared(m)];
    }
  }

  lemma AddMessages(s: State, u: string)
    requires Inv(s)
    ensures var (s', o) := AddStep(s, u); Balanced(s, s', o)
  {
    if Has(s.failures, u) { DropMessage(s.failures, u); }
  }

  lemma StepMessages(s: State, e: Event)
    requires Inv(s)
    ensures var (s', o) := Step(s, e); Balanced(s, s', o)
  {
    match e
    case Add(u) => AddMessages(s, u);
    case Delete(u, m) => DeleteMessages(s, u, m);
    case Tick => CleanMessages(s);
    case Clock(_) =>
  }

  /** Every parked message is forwarded once, discarded once or still waiting: never two of these. */
  lemma {:induction false} MessagesAreConserved(s: State, es: seq<Event>)
    requires Inv(s) && LegalRun(s, es)
    ensures var os := Outcomes(s, es);
            Waiting(s) + All(os, ParkedBy) == All(os, ForwardedBy) + All(os, DiscardedBy) + Waiting(Exec(s, es))
    decreases |es|
  {
    if es != [] {
      var (s', o) := Step(s, es[0]);
      StepKeepsInv(s, es[0]);
      StepMessages(s, es[0]);
      MessagesAreConserved(s', es[1..]);
      var os := Outcomes(s', es[1..]);
      Accumulate(Waiting(s), multiset(ParkedBy(o)), multiset(ForwardedBy(o)), multiset(DiscardedBy(o)), Waiting(s'),
                 All(os, ParkedBy), All(os, ForwardedBy), All(os, DiscardedBy), Waiting(Exec(s', es[1..])));
      assert ([o] + os)[1..] == os;
    }
  }

  lemma Accumulate<T>(w: multiset<T>, p: multiset<T>, f: multiset<T>, d: multiset<T>, w': multiset<T>,
                      ps: multiset<T>, fs: multiset<T>, ds: multiset<T>, z: multiset<T>)
    requires w + p == f + d + w' && w' + ps == fs + ds + z
    ensures w + (p + ps) == (f + fs) + (d + ds) + z
  {
    assert w + (p + ps) == (w + p) + ps == f + d + (w' + ps);
  }

  // ----- the counters

  /** The outcomes of a run, each with its weight. */
  function Weighed(os: seq<Outcome>, weight: Outcome -> nat): (n: nat) {
    if os == [] then 0 else weight(os[0]) + Weighed(os[1..], weight)
  }

  function AddsOne(o: Outcome): (n: nat) { if o.Accepted? || o.AcceptedLate? then 1 else 0 }

  function MatchesOne(o: Outcome): (n: nat) { if o.Matched? then 1 else 0 }

  function RepeatsOne(o: Outcome): (n: nat) { if o.Duplicate? then 1 else 0 }

  function DiscardsSome(o: Outcome): (n: nat) { |DiscardedBy(o)| }

  lemma StepCounts(s: State, e: Event)
    ensures var (s', o) := Step(s, e);
            var c := if o.Report? then o.counters else s'.counters;
            && c.added == s.counters.added + AddsOne(o)
            && c.deleted == s.counters.deleted + MatchesOne(o)
            && c.duplicates == s.counters.duplicates + RepeatsOne(o)
            && c.failed == s.counters.failed + DiscardsSome(o)
            && (o.Report? ==> s'.counters == ZERO)
  {
  }

  /**
   * From any state on, the reports of a run and the counters it ends with add up to what happened: accepted adds,
   * matches, duplicates and discarded messages.
   */
  lemma {:induction false} ReportsAddUp(s: State, es: seq<Event>)
    ensures var os := Outcomes(s, es);
            var c := Plus(Reported(os), Exec(s, es).counters);
            && c.added == s.counters.added + Weighed(os, AddsOne)
            && c.deleted == s.counters.deleted + Weighed(os, MatchesOne)
            && c.duplicates == s.counters.duplicates + Weighed(os, RepeatsOne)
            && c.failed == s.counters.failed + Weighed(os, DiscardsSome)
    decreases |es|
  {
    if es != [] {
      StepCounts(s, es[0]);
      ReportsAddUp(Step(s, es[0]).0, es[1..]);
    }
  }

  // ----- late backends

  /** No event of the run is about request `u`. */
  ghost predicate Silent(es: seq<Event>, u: string) {
    forall i :: 0 <= i < |es| ==> !((es[i].Add? || es[i].Delete?) && es[i].uuid == u)
  }

  ghost predicate Absent(s: State, u: string) {
    !Has(s.uuids, u) && !Has(s.failures, u) && !Has(s.successes, u)
  }

  /** What an event about others does to `u`: nothing, but for the expiry of old entries. */
  ghost predicate Untouched(s: State, s': State, u: string) {
    && (Has(s'.uuids, u) ==> Find(s'.uuids, u) == Find(s.uuids, u))
    && (Has(s'.successes, u) ==> Has(s.successes, u))
    && (Has(s'.failures, u) ==> Has(s.failures, u))
    && (EXPIRE_THRESHOLD_MS <= s.now && Has(s.failures, u) &&
        s'.now <= Find(s.failures, u).value.created + EXPIRE_THRESHOLD_MS ==>
          Find(s'.failures, u) == Find(s.failures, u))
  }

  lemma SilentClean(s: State, u: string)
    requires Inv(s)
    ensures Untouched(s, Clean(s), u)
  {
    CleanFinds(s.uuids, s.threshold, u);
    CleanFindsParked(s.failures, s.threshold, u);
    CleanFinds(s.successes, s.threshold, u);
  }

  lemma SilentDelete(s: State, v: string, m: Msg, u: string)
    requires Inv(s) && u != v
    ensures Untouched(s, DeleteStep(s, v, m).0, u)
  {
    var c := Clean(s);
    SilentClean(s, u);
    CleanKeepsInv(s);
    FindDrop(c.uuids, v, u);
    FindAppend(c.failures, v, Parked(s.now, Cleared(m)), u);
    if Has(c.uuids, v) { FindAppend(c.successes, v, Find(c.uuids, v).value, u); }
  }

  lemma SilentStep(s: State, e: Event, u: string)
    requires Inv(s) && !((e.Add? || e.Delete?) && e.uuid == u)
    ensures Untouched(s, Step(s, e).0, u)
  {
    match e
    case Add(v) =>
      FindAppend(s.uuids, v, s.now, u);
      FindDrop(s.failures, v, u);
    case Delete(v, m) => SilentDelete(s, v, m, u);
    case Tick => SilentClean(s, u);
    case Clock(_) =>
  }

  lemma {:induction false} SilentRun(s: State, es: seq<Event>, u: string)
    requires Inv(s) && LegalRun(s, es) && Silent(es, u)
    ensures Untouched(s, Exec(s, es), u)
    ensures MatchCount(s, es, u) == 0
    decreases |es|
  {
    if es != [] {
      var s' := Step(s, es[0]).0;
      StepKeepsInv(s, es[0]);
      RunKeepsInv(s', es[1..]);
      SilentStep(s, es[0], u);
      SilentRun(s', es[1..], u);
    }
  }

  /** Clock readings and legality of a run depend only on its clock events. */
  lemma {:induction false} SameClock(s: State, t: State, es: seq<Event>)
    requires s.now == t.now
    ensures Exec(s, es).now == Exec(t, es).now && (LegalRun(s, es) <==> LegalRun(t, es))
    decreases |es|
  {
    if es != [] {
      SameClock(Step(s, es[0]).0, Step(t, es[0]).0, es[1..]);
    }
  }

  /** In the state reached from `Add(u)` a delete of `u` has this outcome, which is the same for both orders. */
  ghost predicate EndsAs(z: State, o: Outcome, u: string, added: int, now: int, m: Msg) {
    if now <= added + EXPIRE_THRESHOLD_MS then
      o.Matched? && Find(z.successes, u) == Some(added) && !Has(z.uuids, u) && !Has(z.failures, u)
    else
      && o.ParkedNow? && Find(z.failures, u) == Some(Parked(now, Cleared(m)))
      && !Has(z.uuids, u) && !Has(z.successes, u)
  }

  /** After an accepted add of `u` and a run silent about `u`, a delete in time matches with the add's stamp. */
  lemma DeleteInTime(s: State, u: string, ys: seq<Event>, m: Msg)
    requires Inv(s) && EXPIRE_THRESHOLD_MS <= s.now
    requires !Has(s.uuids, u) && !Has(s.successes, u) && Silent(ys, u)
    requires LegalRun(Step(s, Add(u)).0, ys)
    requires Exec(Step(s, Add(u)).0, ys).now <= s.now + EXPIRE_THRESHOLD_MS
    ensures var y := Exec(Step(s, Add(u)).0, ys);
            EndsAs(Step(y, Delete(u, m)).0, Step(y, Delete(u, m)).1, u, s.now, y.now, m)
  {
    var b := Step(s, Add(u)).0;
    StepKeepsInv(s, Add(u));
    FindAppend(s.uuids, u, s.now, u);
    RunKeeps(b, ys, u, s.now);
    RunKeepsInv(b, ys);
    SilentRun(b, ys, u);
    var y := Exec(b, ys);
    assert DisjointAt(y.uuids, y.failures, y.successes, u);
    CleanKeeps(y, u, s.now);
    StepKeeps(y, Delete(u, m), u, s.now);
    StepKeepsInv(y, Delete(u, m));
    var z := Step(y, Delete(u, m)).0;
    assert DisjointAt(z.uuids, z.failures, z.successes, u);
  }

  /** A clean drops a pending request whose time is over. */
  lemma CleanForgets(y: State, u: string, t: int)
    requires Inv(y) && EXPIRE_THRESHOLD_MS <= y.now && t + EXPIRE_THRESHOLD_MS < y.now
    requires Has(y.uuids, u) ==> Find(y.uuids, u) == Some(t)
    ensures !Has(Clean(y).uuids, u)
  {
    CleanFinds(y.uuids, y.threshold, u);
    CleanIsFresh(y.uuids, y.threshold, y.now);
    CleanKeepsInv(y);
    FindIsMembership(Clean(y).uuids, u);
  }

  /** A late delete finds nothing and is parked. */
  lemma DeleteTooLate(s: State, u: string, ys: seq<Event>, m: Msg)
    requires Inv(s) && EXPIRE_THRESHOLD_MS <= s.now
    requires !Has(s.uuids, u) && !Has(s.successes, u) && Silent(ys, u)
    requires LegalRun(Step(s, Add(u)).0, ys)
    requires s.now + EXPIRE_THRESHOLD_MS < Exec(Step(s, Add(u)).0, ys).now
    ensures var y := Exec(Step(s, Add(u)).0, ys);
            EndsAs(Step(y, Delete(u, m)).0, Step(y, Delete(u, m)).1, u, s.now, y.now, m)
  {
    var b := Step(s, Add(u)).0;
    StepKeepsInv(s, Add(u));
    FindAppend(s.uuids, u, s.now, u);
    assert DisjointAt(b.uuids, b.failures, b.successes, u);
    RunKeepsInv(b, ys);
    SilentRun(b, ys, u);
    var y := Exec(b, ys);
    CleanForgets(y, u, s.now);
    SilentClean(y, u);
    FindAppend(Clean(y).failures, u, Parked(y.now, Cleared(m)), u);
  }

  lemma AddThenDelete(s: State, u: string, ys: seq<Event>, m: Msg)
    requires Inv(s) && EXPIRE_THRESHOLD_MS <= s.now
    requires !Has(s.uuids, u) && !Has(s.successes, u) && Silent(ys, u)
    requires LegalRun(Step(s, Add(u)).0, ys)
    ensures var y := Exec(Step(s, Add(u)).0, ys);
            EndsAs(Step(y, Delete(u, m)).0, Step(y, Delete(u, m)).1, u, s.now, y.now, m)
  {
    if Exec(Step(s, Add(u)).0, ys).now <= s.now + EXPIRE_THRESHOLD_MS {
      DeleteInTime(s, u, ys, m);
    } else {
      DeleteTooLate(s, u, ys, m);
    }
  }

  /** Backend first: `xs`, `Add`, `ys`, `Delete`. */
  lemma BackendFirst(s: State, u: string, xs: seq<Event>, ys: seq<Event>, m: Msg)
    requires Inv(s) && EXPIRE_THRESHOLD_MS <= s.now && Absent(s, u)
    requires Silent(xs, u) && Silent(ys, u) && LegalRun(s, xs) && LegalRun(Exec(s, xs), ys)
    ensures var q := Exec(s, xs);
            var (z, o) := Step(Exec(Step(q, Add(u)).0, ys), Delete(u, m));
            Step(q, Add(u)).1 == Accepted && EndsAs(z, o, u, q.now, Exec(q, ys).now, m)
  {
    var q := Exec(s, xs);
    RunKeepsInv(s, xs);
    SilentRun(s, xs, u);
    SameClock(q, Step(q, Add(u)).0, ys);
    AddThenDelete(q, u, ys, m);
  }

  lemma StillParked(s: State, u: string, m: Msg, xs: seq<Event>)
    requires Inv(s) && EXPIRE_THRESHOLD_MS <= s.now && Absent(s, u) && Silent(xs, u) && LegalRun(s, xs)
    ensures var p := Exec(Step(s, Delete(u, m)).0, xs);
            && Inv(p) && s.now <= p.now == Exec(s, xs).now && !Has(p.uuids, u) && !Has(p.successes, u)
            && (p.now <= s.now + EXPIRE_THRESHOLD_MS ==> Step(p, Add(u)).1 == AcceptedLate(Cleared(m)))
  {
    var d := Step(s, Delete(u, m)).0;
    ParkingStep(s, u, m);
    StepKeepsInv(s, Delete(u, m));
    SameClock(s, d, xs);
    RunKeepsInv(d, xs);
    SilentRun(d, xs, u);
  }

  /** Frontend first: `Delete`, `xs`, `Add`, `ys` and the redelivered `Delete`. */
  lemma FrontendFirst(s: State, u: string, m: Msg, xs: seq<Event>, ys: seq<Event>, again: Msg)
    requires Inv(s) && EXPIRE_THRESHOLD_MS <= s.now && Absent(s, u)
    requires Silent(xs, u) && Silent(ys, u) && LegalRun(s, xs) && LegalRun(Exec(s, xs), ys)
    ensures var p, q := Exec(Step(s, Delete(u, m)).0, xs), Exec(s, xs);
            var (z, o) := Step(Exec(Step(p, Add(u)).0, ys), Delete(u, again));
            EndsAs(z, o, u, q.now, Exec(q, ys).now, again)
  {
    var p, q := Exec(Step(s, Delete(u, m)).0, xs), Exec(s, xs);
    StillParked(s, u, m, xs);
    SameClock(q, Step(p, Add(u)).0, ys);
    AddThenDelete(p, u, ys, again);
  }

  /**
   * Frontend first ends for `u` exactly as backend first: with reply 1 if and only if the redelivery comes in time,
   * and with the same entry in the same ring in any case. The add forwards the parked message if that is still fresh.
   */
  lemma OrderDoesNotMatter(s: State, u: string, m: Msg, xs: seq<Event>, ys: seq<Event>, again: Msg)
    requires Inv(s) && EXPIRE_THRESHOLD_MS <= s.now && Absent(s, u)
    requires Silent(xs, u) && Silent(ys, u) && LegalRun(s, xs + ys)
    ensures var p := Exec(Step(s, Delete(u, m)).0, xs);
            var q := Exec(s, xs);
            var inTime := Exec(s, xs + ys).now <= q.now + EXPIRE_THRESHOLD_MS;
            var (z1, o1) := Step(Exec(Step(p, Add(u)).0, ys), Delete(u, again));
            var (z2, o2) := Step(Exec(Step(q, Add(u)).0, ys), Delete(u, again));
            && o1.Matched? == o2.Matched? == inTime && o1.ParkedNow? == o2.ParkedNow? == !inTime
            && Find(z1.uuids, u) == Find(z2.uuids, u) == None
            && Find(z1.successes, u) == Find(z2.successes, u) == (if inTime then Some(q.now) else None)
            && Find(z1.failures, u) == Find(z2.failures, u)
            && Has(z1.failures, u) == !inTime
            && (p.now <= s.now + EXPIRE_THRESHOLD_MS ==> Step(p, Add(u)).1 == AcceptedLate(Cleared(m)))
            && Step(q, Add(u)).1 == Accepted
  {
    ExecConcat(s, xs, ys);
    StillParked(s, u, m, xs);
    FrontendFirst(s, u, m, xs, ys, again);
    BackendFirst(s, u, xs, ys, again);
  }

  lemma ParkingStep(s: State, u: string, m: Msg)
    requires Inv(s) && Absent(s, u)
    ensures var (d, o) := Step(s, Delete(u, m));
            && o.ParkedNow? && Find(d.failures, u) == Some(Parked(s.now, Cleared(m)))
            && !Has(d.uuids, u) && !Has(d.successes, u)
  {
    CleanFinds(s.uuids, s.threshold, u);
    CleanFindsParked(s.failures, s.threshold, u);
    CleanFinds(s.successes, s.threshold, u);
    FindAppend(Clean(s).failures, u, Parked(s.now, Cleared(m)), u);
  }
}
