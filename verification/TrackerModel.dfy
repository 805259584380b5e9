/**
 * The request-id tracker server as a state machine over values: what one
 * message, timer event or tick does to the three rings and the counters.
 * `Tracker` refines it in place; `TrackerRuns` proves what every run keeps.
 */
module TrackerModel {
  import opened OrderedMap

  const EXPIRE_THRESHOLD_MS: nat := 1000 * 60 * 5
  const TWO_TO_64: nat := 0x1_0000_0000_0000_0000

  /** A message as far as the tracker looks at it: its frame count and the meta frame's routing fields. */
  datatype Msg = Msg(frames: nat, payload: string, device: nat, sequence: nat)

  /** zmsg_clear_device_and_sequence_number */
  function Cleared(m: Msg): (r: Msg) {
    if m.frames == 4 then m.(device := 0, sequence := 0) else m
  }

  datatype Parked = Parked(created: int, msg: Msg)

  datatype Counters = Counters(added: nat, deleted: nat, expired: nat, failed: nat, duplicates: nat)

  const ZERO := Counters(0, 0, 0, 0, 0)

  datatype State = State(
    now: int,
    threshold: int,
    uuids: Entries<int>,
    failures: Entries<Parked>,
    successes: Entries<int>,
    counters: Counters)

  datatype Event = Add(uuid: string) | Delete(uuid: string, msg: Msg) | Tick | Clock(time: int)

  /** What a step lets the outside see; `discarded` lists the parked messages that a clean destroyed. */
  datatype Outcome =
    | Accepted
    | AcceptedLate(forwarded: Msg)
    | Refused
    | Matched(discarded: seq<Msg>)
    | Duplicate(discarded: seq<Msg>)
    | ParkedNow(parked: Msg, discarded: seq<Msg>)
    | Report(counters: Counters, discarded: seq<Msg>)
    | TimeSet

  /** The subtraction is done on unsigned 64-bit numbers. */
  function Threshold(now: int): (t: int) {
    (now + TWO_TO_64 - EXPIRE_THRESHOLD_MS) % TWO_TO_64
  }

  function Init(now: int): (s: State) {
    State(now, Threshold(now), [], [], [], ZERO)
  }

  /** The number of stale entries that are shifted off the head before a fresh head is met. */
  function Stale(es: Entries<int>, threshold: int): (n: nat)
    ensures n <= |es|
  {
    if es != [] && es[0].1 < threshold then 1 + Stale(es[1..], threshold) else 0
  }

  lemma {:induction false} StalePrefix(es: Entries<int>, threshold: int)
    ensures forall i :: 0 <= i < Stale(es, threshold) ==> es[i].1 < threshold
    ensures Stale(es, threshold) < |es| ==> es[Stale(es, threshold)].1 >= threshold
  {
    if es != [] && es[0].1 < threshold {
      StalePrefix(es[1..], threshold);
    }
  }

  /** The failures' keys with their creation times. */
  function Ages(es: Entries<Parked>): (ages: Entries<int>)
    ensures |ages| == |es|
    ensures forall i :: 0 <= i < |es| ==> ages[i] == (es[i].0, es[i].1.created)
  {
    seq(|es|, i requires 0 <= i < |es| => (es[i].0, es[i].1.created))
  }

  function StaleParked(es: Entries<Parked>, threshold: int): (n: nat)
    ensures n <= |es|
  {
    Stale(Ages(es), threshold)
  }

  function Messages(es: Entries<Parked>): (ms: seq<Msg>)
    ensures |ms| == |es|
    ensures forall i :: 0 <= i < |es| ==> ms[i] == es[i].1.msg
  {
    seq(|es|, i requires 0 <= i < |es| => es[i].1.msg)
  }

  /** The messages of the stale failures, which a clean destroys. */
  function Discarded(s: State): (ms: seq<Msg>) {
    Messages(s.failures[..StaleParked(s.failures, s.threshold)])
  }

  /** server_clean_expired_items */
  function Clean(s: State): (r: State) {
    s.(uuids := s.uuids[Stale(s.uuids, s.threshold)..],
       failures := s.failures[StaleParked(s.failures, s.threshold)..],
       successes := s.successes[Stale(s.successes, s.threshold)..],
       counters := s.counters.(expired := s.counters.expired + Stale(s.uuids, s.threshold),
                               failed := s.counters.failed + StaleParked(s.failures, s.threshold)))
  }

  /** server_add_uuid */
  function AddStep(s: State, u: string): (r: (State, Outcome)) {
    var grown := s.(uuids := s.uuids + [(u, s.now)], counters := s.counters.(added := s.counters.added + 1));
    match Find(s.failures, u)
    case Some(parked) => (grown.(failures := Drop(s.failures, u)), AcceptedLate(parked.msg))
    case None =>
      if Find(s.successes, u).Some? || Find(s.uuids, u).Some? then (s, Refused) else (grown, Accepted)
  }

  /** server_delete_uuid after its clean, which destroyed `discarded`; the reply is 1 exactly for `Matched`. */
  function DeleteCleaned(c: State, u: string, m: Msg, discarded: seq<Msg>): (r: (State, Outcome)) {
    match Find(c.uuids, u)
    case Some(stamp) =>
      (c.(uuids := Drop(c.uuids, u), successes := c.successes + [(u, stamp)],
          counters := c.counters.(deleted := c.counters.deleted + 1)),
       Matched(discarded))
    case None =>
      if Find(c.successes, u).Some? || Find(c.failures, u).Some? then
        (c.(counters := c.counters.(duplicates := c.counters.duplicates + 1)), Duplicate(discarded))
      else
        (c.(failures := c.failures + [(u, Parked(c.now, Cleared(m)))]), ParkedNow(Cleared(m), discarded))
  }

  function DeleteStep(s: State, u: string, m: Msg): (r: (State, Outcome)) {
    DeleteCleaned(Clean(s), u, m, Discarded(s))
  }

  /** tracker_tick reports the counters and resets them. */
  function TickStep(s: State): (r: (State, Outcome)) {
    var c := Clean(s);
    (c.(counters := ZERO), Report(c.counters, Discarded(s)))
  }

  /** tracker_state_set_time_params */
  function ClockStep(s: State, time: int): (r: (State, Outcome)) {
    (s.(now := time, threshold := Threshold(time)), TimeSet)
  }

  function Step(s: State, e: Event): (r: (State, Outcome)) {
    match e
    case Add(u) => AddStep(s, u)
    case Delete(u, m) => DeleteStep(s, u, m)
    case Tick => TickStep(s)
    case Clock(t) => ClockStep(s, t)
  }
}
