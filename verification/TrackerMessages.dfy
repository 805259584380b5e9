/**
 * Which messages the tracker parks and forwards. A frontend message that
 * waits for its backend request has been counted by the device tracker when it
 * came in, so it is parked without its device and sequence number and cannot
 * be taken for a gap when it is forwarded.
 */
module TrackerMessages {
  import opened Options
  import opened OrderedMap
  import opened TrackerModel
  import opened TrackerRuns
  import DeviceTracker

  /** The same message, without device and sequence number if it has a meta frame. */
  ghost predicate Stripped(original: Msg, m: Msg) {
    && m.frames == original.frames && m.payload == original.payload
    && (m.frames == 4 ==> m.device == 0 && m.sequence == 0)
    && (m.frames != 4 ==> m == original)
  }

  ghost predicate Brought(e: Event, uuid: string, m: Msg) {
    e.Delete? && e.uuid == uuid && Stripped(e.msg, m)
  }

  /** A message is parked under a uuid. */
  ghost predicate Waits(s: State, uuid: string, m: Msg) {
    exists parked :: (uuid, parked) in s.failures && parked.msg == m
  }

  lemma {:induction false} FoundIn<V>(es: Entries<V>, u: string)
    requires Find(es, u).Some?
    ensures (u, Find(es, u).value) in es
  {
    if es[0].0 != u {
      FoundIn(es[1..], u);
    }
  }

  lemma {:induction false} DropShrinks<V>(es: Entries<V>, u: string, e: (string, V))
    requires e in Drop(es, u)
    ensures e in es
  {
    if es[0].0 != u && e != es[0] {
      DropShrinks(es[1..], u, e);
    }
  }

  lemma AddStrips(s: State, u: string, v: string, m: Msg)
    ensures Waits(AddStep(s, u).0, v, m) ==> Waits(s, v, m)
    ensures AddStep(s, u).1 == AcceptedLate(m) ==> Waits(s, u, m)
  {
    if Find(s.failures, u).Some? {
      FoundIn(s.failures, u);
      if Waits(AddStep(s, u).0, v, m) {
        var parked :| (v, parked) in Drop(s.failures, u) && parked.msg == m;
        DropShrinks(s.failures, u, (v, parked));
      }
    }
  }

  lemma CleanWaits(s: State, u: string, m: Msg)
    requires Waits(Clean(s), u, m)
    ensures Waits(s, u, m)
  {
  }

  lemma DeleteStrips(s: State, u: string, msg: Msg, v: string, m: Msg)
    ensures Waits(DeleteStep(s, u, msg).0, v, m) ==> Waits(s, v, m) || (u == v && Stripped(msg, m))
    ensures DeleteStep(s, u, msg).1.ParkedNow? ==> Stripped(msg, DeleteStep(s, u, msg).1.parked)
    ensures !DeleteStep(s, u, msg).1.AcceptedLate?
  {
    if Waits(Clean(s), v, m) { CleanWaits(s, v, m); }
  }

  /** A step parks nothing but the message of a delete, stripped, and forwards only what waited for this uuid. */
  lemma StepStrips(s: State, e: Event, u: string, m: Msg)
    ensures Waits(Step(s, e).0, u, m) ==> Waits(s, u, m) || Brought(e, u, m)
    ensures Step(s, e).1 == AcceptedLate(m) ==> e.Add? && Waits(s, e.uuid, m)
    ensures Step(s, e).1.ParkedNow? ==> e.Delete? && Brought(e, e.uuid, Step(s, e).1.parked)
  {
    match e
    case Add(v) => AddStrips(s, v, u, m);
    case Delete(v, msg) => DeleteStrips(s, v, msg, u, m);
    case Tick => if Waits(Clean(s), u, m) { CleanWaits(s, u, m); }
    case Clock(_) =>
  }

  /** In every run, whatever waits under a uuid is the stripped message of a delete of that uuid. */
  lemma {:induction false} WaitingAreStripped(t0: int, es: seq<Event>, u: string, m: Msg)
    requires Waits(Exec(Init(t0), es), u, m)
    ensures exists k :: 0 <= k < |es| && Brought(es[k], u, m)
    decreases |es|
  {
    if es != [] {
      var n := |es| - 1;
      var before := es[..n];
      assert es == before + [es[n]];
      ExecConcat(Init(t0), before, [es[n]]);
      ExecOne(Exec(Init(t0), before), es[n]);
      StepStrips(Exec(Init(t0), before), es[n], u, m);
      if Waits(Exec(Init(t0), before), u, m) {
        WaitingAreStripped(t0, before, u, m);
        var k :| 0 <= k < |before| && Brought(before[k], u, m);
        assert Brought(es[k], u, m);
      }
    }
  }

  lemma ExecOne(s: State, e: Event)
    ensures Exec(s, [e]) == Step(s, e).0 && Outcomes(s, [e]) == [Step(s, e).1]
  {
    assert [e][1..] == [];
  }

  /** The state and the outcome of the step at `j`. */
  lemma StepAt(s: State, es: seq<Event>, j: nat)
    requires j < |es|
    ensures Outcomes(s, es)[j] == Step(Exec(s, es[..j]), es[j]).1
  {
    assert es == es[..j] + ([es[j]] + es[j + 1..]);
    ExecConcat(s, es[..j], [es[j]] + es[j + 1..]);
    ExecCons(Exec(s, es[..j]), es[j], es[j + 1..]);
  }

  /** In every run, a message that is forwarded late is the stripped message of an earlier delete of the same uuid. */
  lemma ForwardedAreStripped(t0: int, es: seq<Event>, j: nat)
    requires j < |es| && Outcomes(Init(t0), es)[j].AcceptedLate?
    ensures es[j].Add?
    ensures exists k :: 0 <= k < j && Brought(es[k], es[j].uuid, Outcomes(Init(t0), es)[j].forwarded)
  {
    var m := Outcomes(Init(t0), es)[j].forwarded;
    StepAt(Init(t0), es, j);
    StepStrips(Exec(Init(t0), es[..j]), es[j], "", m);
    WaitingAreStripped(t0, es[..j], es[j].uuid, m);
  }

  /** Forwarding it again does not touch the device tracker: its first arrival stays the only one counted. */
  lemma LateMessagesLeaveNoGap(t0: int, es: seq<Event>, j: nat, seen: DeviceTracker.Devices, spec: Option<string>)
    requires j < |es| && Outcomes(Init(t0), es)[j].AcceptedLate?
    ensures var m := Outcomes(Init(t0), es)[j].forwarded;
            m.frames == 4 ==>
              && m.sequence < DeviceTracker.TWO64
              && DeviceTracker.Heard(seen, m.device, m.sequence, spec) == seen
              && DeviceTracker.GapAt(seen, m.device, m.sequence) == 0
  {
    ForwardedAreStripped(t0, es, j);
  }
}
