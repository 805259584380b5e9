/**
 * Gap counting per device in 64-bit wrap-around arithmetic, and the credit
 * that decides when a silent device is dropped.
 */
module DeviceTracker {
  import opened Options

  const TWO32 := 0x1_0000_0000
  const TWO63 := 0x8000_0000_0000_0000
  const TWO64 := 0x1_0000_0000_0000_0000
  const INITIAL_CREDIT := 6

  type U64 = x: int | 0 <= x < TWO64

  datatype Info = Info(sequence: U64, lost: U64, credit: int, spec: Option<string>)

  type Devices = map<int, Info>

  // ----- what a message and a check do to the table

  /** Reading a 64-bit value as a signed one. */
  function Signed(x: U64): (r: int) { if x < TWO63 then x else x - TWO64 }

  /** The gap between two consecutive messages of a device, as computed in 64 bits. */
  function Gap(last: U64, sequence: U64): (gap: U64) {
    var gap := Signed((sequence - last - 1) % TWO64);
    if gap < 0 then 0 else gap
  }

  function GapAt(seen: Devices, device: int, sequence: U64): (gap: U64) {
    if device != 0 && device in seen then Gap(seen[device].sequence, sequence) else 0
  }

  function Heard(seen: Devices, device: int, sequence: U64, spec: Option<string>): (seen': Devices) {
    if device == 0 then seen
    else if device !in seen then seen[device := Info(sequence, 0, INITIAL_CREDIT, spec)]
    else
      var info := seen[device];
      seen[device := Info(sequence, (info.lost + Gap(info.sequence, sequence)) % TWO64, INITIAL_CREDIT,
                          if spec.Some? then spec else info.spec)]
  }

  predicate Stale(info: Info) { info.credit <= 0 && info.spec.Some? }

  function Charged(info: Info): (info': Info) { info.(credit := info.credit - 1) }

  function Checked(seen: Devices): (seen': Devices) {
    map d | d in seen && !Stale(seen[d]) :: Charged(seen[d])
  }

  /** device_tracker_t. */
  class Tracker {
    var seen: Devices

    constructor ()
      ensures seen == map[]
    {
      seen := map[];
    }

    method CalculateGap(device: int, sequence: U64, spec: Option<string>) returns (gap: U64)
      requires 0 <= device < TWO32
      modifies this
      ensures seen == Heard(old(seen), device, sequence, spec)
      ensures gap == GapAt(old(seen), device, sequence)
    {
      if device == 0 {
        return 0;
      }
      if device !in seen {
        seen := seen[device := Info(sequence, 0, INITIAL_CREDIT, spec)];
        return 0;
      }
      var info := seen[device];
      var difference := Signed((sequence - info.sequence - 1) % TWO64);
      if difference < 0 {
        difference := 0;
      } else if difference > 0 {
        info := info.(lost := (info.lost + difference) % TWO64);
      }
      info := info.(sequence := sequence, credit := INITIAL_CREDIT);
      if spec.Some? {
        info := info.(spec := spec);
      }
      seen := seen[device := info];
      return difference;
    }

    /** Takes one credit from every device and lists the ones to drop. */
    method TakeCredit() returns (stale: seq<int>)
      modifies this
      ensures seen.Keys == old(seen).Keys
      ensures forall d :: d in seen ==> seen[d] == Charged(old(seen)[d])
      ensures forall d :: d in stale <==> d in old(seen) && Stale(old(seen)[d])
      ensures forall i, j :: 0 <= i < j < |stale| ==> stale[i] != stale[j]
    {
      stale := [];
      ghost var was := seen;
      var rest: set<int> := seen.Keys;
      while |rest| > 0
        invariant rest <= was.Keys && seen.Keys == was.Keys
        invariant forall d :: d in rest ==> seen[d] == was[d]
        invariant forall d :: d in was && d !in rest ==> seen[d] == Charged(was[d])
        invariant forall d :: d in stale <==> d in was && d !in rest && Stale(was[d])
        invariant forall i, j :: 0 <= i < j < |stale| ==> stale[i] != stale[j]
        decreases |rest|
      {
        assert (forall d :: d !in rest) ==> rest == {};
        var d :| d in rest;
        var info := seen[d];
        seen := seen[d := info.(credit := info.credit - 1)];
        if info.credit <= 0 && info.spec.Some? {
          stale := stale + [d];
        }
        rest := rest - {d};
      }
    }

    /** Drops exactly the stale devices, each of which is reconnected once. */
    method ReconnectStaleDevices() returns (stale: seq<int>)
      modifies this
      ensures seen == Checked(old(seen))
      ensures forall d :: d in stale <==> d in old(seen) && d !in seen
      ensures forall i, j :: 0 <= i < j < |stale| ==> stale[i] != stale[j]
    {
      stale := TakeCredit();
      ghost var taken := seen;
      for i := 0 to |stale|
        invariant forall d :: d in seen <==> d in taken && d !in stale[..i]
        invariant forall d :: d in seen ==> seen[d] == taken[d]
      {
        seen := seen - {stale[i]};
        assert stale[..i + 1] == stale[..i] + [stale[i]];
      }
      assert stale[..|stale|] == stale;
      assert forall d :: d in seen.Keys <==> d in Checked(old(seen)).Keys;
      assert forall d :: d in seen ==> seen[d] == Checked(old(seen))[d];
    }
  }

  // ----- gaps

  /** For every pair of sequence numbers: which distances count as a loss, and of how much. */
  lemma GapClassified(last: U64, sequence: U64)
    ensures var d := sequence - last;
            Gap(last, sequence) == if 1 <= d <= TWO63 then d - 1 else if d <= -TWO63 then TWO64 + d - 1 else 0
  {
    var d := sequence - last;
    if d >= 1 {
      assert (d - 1) % TWO64 == d - 1;
    } else {
      assert (d - 1) % TWO64 == TWO64 + d - 1;
    }
  }

  /** A repeated or older sequence number counts as no loss, except one at least 2^63 behind. */
  lemma BackwardsIsFree(last: U64, sequence: U64)
    requires sequence <= last
    ensures Gap(last, sequence) == 0 <==> last - sequence < TWO63 || last - sequence == TWO64 - 1
  {
    GapClassified(last, sequence);
  }

  // ----- runs

  datatype Event = Message(device: int, sequence: U64, spec: Option<string>) | Check

  function Step(seen: Devices, event: Event): (seen': Devices) {
    match event
    case Message(device, sequence, spec) => Heard(seen, device, sequence, spec)
    case Check => Checked(seen)
  }

  function Exec(seen: Devices, events: seq<Event>): (seen': Devices)
    decreases |events|
  {
    if events == [] then seen else Exec(Step(seen, events[0]), events[1..])
  }

  predicate Own(event: Event, device: int) { event.Message? && event.device == device }

  /** The gaps reported for the messages of one device. */
  function Gaps(seen: Devices, events: seq<Event>, device: int): (gaps: seq<U64>)
    decreases |events|
  {
    if events == [] then []
    else
      var rest := Gaps(Step(seen, events[0]), events[1..], device);
      if Own(events[0], device) then [GapAt(seen, device, events[0].sequence)] + rest else rest
  }

  predicate Concerns(event: Event, device: int) { event.Check? || event.device == device }

  function Project(events: seq<Event>, device: int): (own: seq<Event>)
    decreases |events|
  {
    if events == [] then []
    else if Concerns(events[0], device) then [events[0]] + Project(events[1..], device)
    else Project(events[1..], device)
  }

  function Find(seen: Devices, device: int): (info: Option<Info>) {
    if device in seen then Some(seen[device]) else None
  }

  lemma StepAt(seen: Devices, other: Devices, event: Event, device: int)
    requires Find(seen, device) == Find(other, device)
    ensures Find(Step(seen, event), device) == Find(Step(other, event), device)
    ensures !Concerns(event, device) ==> Find(Step(seen, event), device) == Find(seen, device)
  {
  }

  /** What is recorded and reported for a device depends only on its own messages and the checks. */
  lemma {:induction false} DevicesAreIndependent(seen: Devices, other: Devices, events: seq<Event>, device: int)
    requires Find(seen, device) == Find(other, device)
    ensures Find(Exec(seen, events), device) == Find(Exec(other, Project(events, device)), device)
    ensures Gaps(seen, events, device) == Gaps(other, Project(events, device), device)
    decreases |events|
  {
    if events != [] {
      var own := Project(events, device);
      StepAt(seen, other, events[0], device);
      if Concerns(events[0], device) {
        assert own[0] == events[0] && own[1..] == Project(events[1..], device);
        DevicesAreIndependent(Step(seen, events[0]), Step(other, events[0]), events[1..], device);
      } else {
        DevicesAreIndependent(Step(seen, events[0]), other, events[1..], device);
      }
    }
  }

  // ----- addresses

  /** The message announces the address of the device's publisher. */
  predicate Announces(event: Event, device: int) { Own(event, device) && event.spec.Some? }

  /** The device is never dropped on the way. */
  ghost predicate StaysListed(seen: Devices, events: seq<Event>, device: int)
    decreases |events|
  {
    device in seen && (events == [] || StaysListed(Step(seen, events[0]), events[1..], device))
  }

  lemma {:induction false} AddressIsKept(seen: Devices, events: seq<Event>, device: int)
    requires StaysListed(seen, events, device) && device != 0
    requires forall i :: 0 <= i < |events| ==> !Announces(events[i], device)
    ensures device in Exec(seen, events) && Exec(seen, events)[device].spec == seen[device].spec
    decreases |events|
  {
    if events != [] {
      AddressIsKept(Step(seen, events[0]), events[1..], device);
    }
  }

  /** As long as a device is listed, the address recorded for it is the one it announced last. */
  lemma LatestAddressIsKept(seen: Devices, device: int, sequence: U64, address: string, events: seq<Event>)
    requires device != 0 && StaysListed(Heard(seen, device, sequence, Some(address)), events, device)
    requires forall i :: 0 <= i < |events| ==> !Announces(events[i], device)
    ensures var after := Exec(seen, [Message(device, sequence, Some(address))] + events);
            device in after && after[device].spec == Some(address)
  {
    AddressIsKept(Heard(seen, device, sequence, Some(address)), events, device);
    assert ([Message(device, sequence, Some(address))] + events)[1..] == events;
  }

  // ----- staleness

  function Checks(events: seq<Event>): (n: nat)
    decreases |events|
  {
    if events == [] then 0 else (if events[0].Check? then 1 else 0) + Checks(events[1..])
  }

  predicate SilentFor(events: seq<Event>, device: int) {
    forall i :: 0 <= i < |events| && events[i].Message? ==> events[i].device != device
  }

  lemma {:induction false} AbsentStaysAbsent(seen: Devices, events: seq<Event>, device: int)
    requires SilentFor(events, device) && device !in seen
    ensures device !in Exec(seen, events)
    decreases |events|
  {
    if events != [] {
      AbsentStaysAbsent(Step(seen, events[0]), events[1..], device);
    }
  }

  /**
   * However other devices behave, a silent device loses one credit per check,
   * and is dropped by the check after the last credit if its publisher is known.
   */
  lemma {:induction false} SilentDevice(seen: Devices, events: seq<Event>, device: int)
    requires SilentFor(events, device) && device in seen && seen[device].credit >= 0
    ensures var info, n := seen[device], Checks(events);
            Find(Exec(seen, events), device) ==
            if info.spec.Some? && n > info.credit then None else Some(info.(credit := info.credit - n))
    decreases |events|
  {
    if events != [] {
      var next := Step(seen, events[0]);
      if events[0].Check? && seen[device].spec.Some? && seen[device].credit == 0 {
        AbsentStaysAbsent(next, events[1..], device);
      } else if events[0].Check? && seen[device].credit == 0 {
        ForgottenSpec(next, events[1..], device);
      } else {
        SilentDevice(next, events[1..], device);
      }
    }
  }

  /** A device whose publisher is not known is never dropped. */
  lemma {:induction false} ForgottenSpec(seen: Devices, events: seq<Event>, device: int)
    requires SilentFor(events, device) && device in seen && seen[device].spec.None?
    ensures Find(Exec(seen, events), device) == Some(seen[device].(credit := seen[device].credit - Checks(events)))
    decreases |events|
  {
    if events != [] {
      ForgottenSpec(Step(seen, events[0]), events[1..], device);
    }
  }

  /** After its last message a device with a known publisher is dropped exactly at the seventh check. */
  lemma SeventhCheckDrops(seen: Devices, device: int, sequence: U64, spec: string, events: seq<Event>)
    requires device != 0 && SilentFor(events, device)
    ensures device in Exec(Heard(seen, device, sequence, Some(spec)), events) <==> Checks(events) < 7
  {
    SilentDevice(Heard(seen, device, sequence, Some(spec)), events, device);
  }

  // ----- conservation

  /**
   * The messages of a device carry increasing sequence numbers, with steps the
   * 64-bit arithmetic can tell from a wrap; `last` is the latest one before.
   */
  predicate Increasing(last: Option<U64>, events: seq<Event>, device: int)
    decreases |events|
  {
    if events == [] then true
    else if Own(events[0], device) then
      && (last.Some? ==> last.value < events[0].sequence <= last.value + TWO63)
      && Increasing(Some(events[0].sequence), events[1..], device)
    else Increasing(last, events[1..], device)
  }

  function Received(events: seq<Event>, device: int): (n: nat)
    decreases |events|
  {
    if events == [] then 0 else (if Own(events[0], device) then 1 else 0) + Received(events[1..], device)
  }

  function Last(last: U64, events: seq<Event>, device: int): (sequence: U64)
    decreases |events|
  {
    if events == [] then last
    else Last(if Own(events[0], device) then events[0].sequence else last, events[1..], device)
  }

  function Total(gaps: seq<U64>): (n: nat) { if gaps == [] then 0 else gaps[0] + Total(gaps[1..]) }

  // ----- since the last registration

  /** The first sequence number of a device's current registration, and the messages received since. */
  datatype Registration = Registration(first: U64, received: nat)

  function Registered(seen: Devices, events: seq<Event>, device: int, current: Registration): (latest: Registration)
    decreases |events|
  {
    if events == [] then current
    else
      var next := if !Own(events[0], device) then current
                  else if device in seen then current.(received := current.received + 1)
                  else Registration(events[0].sequence, 1);
      Registered(Step(seen, events[0]), events[1..], device, next)
  }

  ghost predicate Balanced(seen: Devices, device: int, last: Option<U64>, current: Registration) {
    device in seen ==>
      && last == Some(seen[device].sequence)
      && seen[device].lost + current.received == seen[device].sequence - current.first + 1
      && current.received > 0
  }

  lemma StepBalanced(seen: Devices, event: Event, device: int, last: Option<U64>, current: Registration)
    requires device != 0 && Balanced(seen, device, last, current) && Increasing(last, [event], device)
    ensures var next := Registered(seen, [event], device, current);
            Balanced(Step(seen, event), device, if Own(event, device) then Some(event.sequence) else last, next)
  {
    if Own(event, device) && device in seen {
      GapClassified(seen[device].sequence, event.sequence);
    }
  }

  lemma {:induction false} RunBalanced(seen: Devices, events: seq<Event>, device: int, last: Option<U64>,
                                       current: Registration)
    requires device != 0 && Balanced(seen, device, last, current) && Increasing(last, events, device)
    ensures var after, latest := Exec(seen, events), Registered(seen, events, device, current);
            device in after ==> after[device].lost + latest.received == after[device].sequence - latest.first + 1
    decreases |events|
  {
    if events != [] {
      var e := events[0];
      assert [e][1..] == [];
      StepBalanced(seen, e, device, last, current);
      RunBalanced(Step(seen, e), events[1..], device, if Own(e, device) then Some(e.sequence) else last,
                  Registered(seen, [e], device, current));
    }
  }

  /**
   * In every run, whatever other devices send and however many checks pass:
   * for a device in the table, received plus lost messages since its last
   * registration are the range of its sequence numbers since then.
   */
  lemma ReceivedPlusLost(seen: Devices, events: seq<Event>, device: int)
    requires device != 0 && device !in seen && Increasing(None, events, device)
    ensures var after, latest := Exec(seen, events), Registered(seen, events, device, Registration(0, 0));
            device in after ==> after[device].lost + latest.received == after[device].sequence - latest.first + 1
  {
    RunBalanced(seen, events, device, None, Registration(0, 0));
  }

  // ----- since the very first message

  /** Is a device absent that was silent for some checks, and whose publisher is known or not? */
  predicate Dropped(silent: nat, known: bool) { known && silent > INITIAL_CREDIT }

  /** The messages that go uncounted because the device is absent when the next one arrives. */
  function Missed(silent: nat, known: bool, last: U64, events: seq<Event>, device: int): (n: int)
    decreases |events|
  {
    if events == [] then 0
    else if events[0].Check? then Missed(silent + 1, known, last, events[1..], device)
    else if events[0].device != device then Missed(silent, known, last, events[1..], device)
    else
      var e, dropped := events[0], Dropped(silent, known);
      (if dropped then e.sequence - last - 1 else 0)
      + Missed(0, e.spec.Some? || (known && !dropped), e.sequence, events[1..], device)
  }

  /** A message of the device arrives in sequence, or while the device is in the table. */
  predicate NoneMissed(silent: nat, known: bool, last: U64, events: seq<Event>, device: int)
    decreases |events|
  {
    if events == [] then true
    else if events[0].Check? then NoneMissed(silent + 1, known, last, events[1..], device)
    else if events[0].device != device then NoneMissed(silent, known, last, events[1..], device)
    else
      var e, dropped := events[0], Dropped(silent, known);
      && (dropped ==> e.sequence == last + 1)
      && NoneMissed(0, e.spec.Some? || (known && !dropped), e.sequence, events[1..], device)
  }

  lemma {:induction false} MissedIsZero(silent: nat, known: bool, last: U64, events: seq<Event>, device: int)
    requires Increasing(Some(last), events, device)
    ensures Missed(silent, known, last, events, device) >= 0
    ensures Missed(silent, known, last, events, device) == 0 <==> NoneMissed(silent, known, last, events, device)
    decreases |events|
  {
    if events != [] {
      if events[0].Check? {
        MissedIsZero(silent + 1, known, last, events[1..], device);
      } else if events[0].device != device {
        MissedIsZero(silent, known, last, events[1..], device);
      } else {
        var e := events[0];
        MissedIsZero(0, e.spec.Some? || (known && !Dropped(silent, known)), e.sequence, events[1..], device);
      }
    }
  }

  /** The table's record of a device, after a message `last` and then `silent` checks. */
  ghost predicate Recorded(seen: Devices, device: int, last: U64, silent: nat, known: bool) {
    && (device in seen <==> !Dropped(silent, known))
    && (device in seen ==>
          var info := seen[device];
          info.sequence == last && info.credit == INITIAL_CREDIT - silent && info.spec.Some? == known)
  }

  lemma {:induction false} AllAccountedFor(seen: Devices, events: seq<Event>, device: int, last: U64, silent: nat,
                                           known: bool)
    requires device != 0 && Recorded(seen, device, last, silent, known) && Increasing(Some(last), events, device)
    ensures Total(Gaps(seen, events, device)) + Received(events, device) + Missed(silent, known, last, events, device)
            == Last(last, events, device) - last
    decreases |events|
  {
    if events != [] {
      var e, next := events[0], Step(seen, events[0]);
      if e.Check? {
        AllAccountedFor(next, events[1..], device, last, silent + 1, known);
      } else if e.device != device {
        AllAccountedFor(next, events[1..], device, last, silent, known);
      } else {
        if device in seen { GapClassified(last, e.sequence); }
        AllAccountedFor(next, events[1..], device, e.sequence, 0, e.spec.Some? || (known && !Dropped(silent, known)));
      }
    }
  }

  /**
   * From a device's very first message on: received plus reported losses are
   * the range of its sequence numbers if and only if no message that is out of
   * sequence arrives after the device was dropped.
   */
  lemma RangeIsAccountedFor(seen: Devices, device: int, first: U64, spec: Option<string>, events: seq<Event>)
    requires device != 0 && device !in seen && Increasing(Some(first), events, device)
    ensures var run := [Message(device, first, spec)] + events;
            Total(Gaps(seen, run, device)) + Received(run, device) == Last(first, events, device) - first + 1
            <==> NoneMissed(0, spec.Some?, first, events, device)
  {
    var run := [Message(device, first, spec)] + events;
    assert run[1..] == events;
    var next := Step(seen, run[0]);
    assert Gaps(seen, run, device)[1..] == Gaps(next, events, device);
    AllAccountedFor(next, events, device, first, 0, spec.Some?);
    MissedIsZero(0, spec.Some?, first, events, device);
  }

  /** At most six checks pass between two messages of a device, of which `silent` have passed already. */
  predicate KeptUp(silent: nat, events: seq<Event>, device: int)
    decreases |events|
  {
    if events == [] then true
    else if events[0].Check? then silent < INITIAL_CREDIT && KeptUp(silent + 1, events[1..], device)
    else KeptUp(if events[0].device == device then 0 else silent, events[1..], device)
  }

  predicate Unannounced(events: seq<Event>, device: int) {
    forall i :: 0 <= i < |events| && Own(events[i], device) ==> events[i].spec.None?
  }

  /** Nothing is missed of a device that is heard in time, or whose publisher was never announced. */
  lemma {:induction false} NothingMissed(silent: nat, known: bool, last: U64, events: seq<Event>, device: int)
    requires (silent <= INITIAL_CREDIT && KeptUp(silent, events, device)) || (!known && Unannounced(events, device))
    ensures NoneMissed(silent, known, last, events, device)
    decreases |events|
  {
    if events != [] {
      assert Unannounced(events, device) ==> Unannounced(events[1..], device);
      if events[0].Check? {
        NothingMissed(silent + 1, known, last, events[1..], device);
      } else if events[0].device != device {
        NothingMissed(silent, known, last, events[1..], device);
      } else {
        assert Own(events[0], device);
        NothingMissed(0, events[0].spec.Some? || known, events[0].sequence, events[1..], device);
      }
    }
  }

  /** A device that was dropped starts over: whatever was lost up to its next message is not counted. */
  lemma DroppedDeviceStartsOver(seen: Devices, device: int, first: U64, spec: string, silence: seq<Event>, next: U64)
    requires device != 0 && SilentFor(silence, device) && Checks(silence) >= 7
    ensures var dropped := Exec(Heard(seen, device, first, Some(spec)), silence);
            && GapAt(dropped, device, next) == 0
            && Heard(dropped, device, next, None)[device] == Info(next, 0, INITIAL_CREDIT, None)
  {
    SeventhCheckDrops(seen, device, first, spec, silence);
  }

  const SEVEN_CHECKS := [Check, Check, Check, Check, Check, Check, Check]

  /** Messages 1 and 10 with seven checks in between: 2 received, none lost, in a range of 10. */
  lemma EightLostUnnoticed()
    ensures var run := [Message(1, 1, Some("p"))] + (SEVEN_CHECKS + [Message(1, 10, None)]);
            && Increasing(None, run, 1) && Received(run, 1) == 2 && Total(Gaps(map[], run, 1)) == 0
  {
    var events := SEVEN_CHECKS + [Message(1, 10, None)];
    var run := [Message(1, 1, Some("p"))] + events;
    SevenThenMessage(Message(1, 10, None), 1, 1);
    assert run[1..] == events;
    assert Gaps(map[], run, 1)[1..] == Gaps(Step(map[], run[0]), events, 1);
    AllAccountedFor(Step(map[], run[0]), events, 1, 1, 0, true);
  }

  lemma SevenThenMessage(e: Event, device: int, last: U64)
    requires Own(e, device) && last < e.sequence <= last + TWO63
    ensures var events := SEVEN_CHECKS + [e];
            && Increasing(Some(last), events, device) && Received(events, device) == 1
            && Last(last, events, device) == e.sequence
            && Missed(0, true, last, events, device) == e.sequence - last - 1
  {
    ChecksFirst(7, e, device, last, 0);
    assert SEVEN_CHECKS == seq(7, _ => Check);
  }

  lemma {:induction false} ChecksFirst(n: nat, e: Event, device: int, last: U64, silent: nat)
    requires Own(e, device) && last < e.sequence <= last + TWO63
    ensures var events := seq(n, _ => Check) + [e];
            && Increasing(Some(last), events, device) && Received(events, device) == 1
            && Last(last, events, device) == e.sequence
            && Missed(silent, true, last, events, device) ==
               if silent + n > INITIAL_CREDIT then e.sequence - last - 1 else 0
  {
    var events := seq(n, _ => Check) + [e];
    if n == 0 {
      assert events == [e] && events[1..] == [];
    } else {
      assert events[1..] == seq(n - 1, _ => Check) + [e];
      ChecksFirst(n - 1, e, device, last, silent + 1);
    }
  }
}
