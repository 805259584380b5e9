/** The tracker server with its rings and counters updated in place. */
module Tracker {
  import opened Options
  import opened OrderedMap
  import opened TrackerModel
  import opened TrackerRuns
  import ZRing

  class Server {
    var currentTimeMs: int
    var ageThresholdMs: int
    var added: nat
    var deleted: nat
    var expired: nat
    var failed: nat
    var duplicates: nat
    const uuids: ZRing.Ring<int>
    const failures: ZRing.Ring<Parked>
    const successes: ZRing.Ring<int>

    /** The rings are well formed; that `Inv` holds of `Value()` in every run is `TrackerRuns.RunKeepsInv`. */
    ghost predicate Valid()
      reads this, uuids, failures, successes
    {
      && uuids != successes && uuids as object != failures && successes as object != failures
      && uuids.Valid() && failures.Valid() && successes.Valid()
    }

    ghost function Value(): (s: State)
      reads this, uuids, failures, successes
    {
      State(currentTimeMs, ageThresholdMs, uuids.contents, failures.contents, successes.contents,
            Counters(added, deleted, expired, failed, duplicates))
    }

    constructor (now: int)
      requires 0 < now < TWO_TO_64
      ensures Valid() && Value() == Init(now)
      ensures fresh(uuids) && fresh(failures) && fresh(successes)
    {
      uuids := new ZRing.Ring();
      failures := new ZRing.Ring();
      successes := new ZRing.Ring();
      currentTimeMs, ageThresholdMs := now, Threshold(now);
      added, deleted, expired, failed, duplicates := 0, 0, 0, 0, 0;
    }

    method SetTime(now: int)
      requires Valid() && currentTimeMs <= now < TWO_TO_64
      modifies this
      ensures Valid() && Value() == Step(old(Value()), Clock(now)).0
    {
      currentTimeMs, ageThresholdMs := now, Threshold(now);
    }

    /** Shifts stale stamps off the head of a ring; the three clean loops of the source. */
    static method CleanStamps(ring: ZRing.Ring<int>, threshold: int) returns (removed: nat)
      requires ring.Valid()
      modifies ring
      ensures ring.Valid()
      ensures ring.contents == old(ring.contents)[Stale(old(ring.contents), threshold)..]
      ensures removed == Stale(old(ring.contents), threshold)
    {
      ghost var all := ring.contents;
      removed := 0;
      while true
        invariant ring.Valid() && removed <= |all| && ring.contents == all[removed..]
        invariant Stale(all, threshold) == removed + Stale(all[removed..], threshold)
        decreases |all| - removed
      {
        var item := ring.First();
        if item.None? || item.value >= threshold {
          break;
        }
        var _ := ring.Shift();
        assert all[removed..][1..] == all[removed + 1..];
        removed := removed + 1;
      }
    }

    static method CleanParked(ring: ZRing.Ring<Parked>, threshold: int) returns (destroyed: seq<Msg>)
      requires ring.Valid()
      modifies ring
      ensures ring.Valid()
      ensures ring.contents == old(ring.contents)[StaleParked(old(ring.contents), threshold)..]
      ensures destroyed == Messages(old(ring.contents)[..StaleParked(old(ring.contents), threshold)])
    {
      ghost var all := ring.contents;
      ghost var n := 0;
      destroyed := [];
      while true
        invariant ring.Valid() && n <= |all| && ring.contents == all[n..]
        invariant destroyed == Messages(all[..n])
        invariant StaleParked(all, threshold) == n + StaleParked(all[n..], threshold)
        decreases |all| - n
      {
        var failure := ring.First();
        if failure.None? || failure.value.created >= threshold {
          break;
        }
        var _ := ring.Shift();
        StaleTail(all, n, threshold);
        destroyed := destroyed + [failure.value.msg];
        n := n + 1;
      }
    }

    static lemma StaleTail(all: Entries<Parked>, n: nat, threshold: int)
      requires n < |all| && all[n].1.created < threshold
      ensures all[n..][1..] == all[n + 1..]
      ensures StaleParked(all[n..], threshold) == 1 + StaleParked(all[n + 1..], threshold)
      ensures Messages(all[..n + 1]) == Messages(all[..n]) + [all[n].1.msg]
    {
      assert Ages(all[n..])[1..] == Ages(all[n + 1..]);
    }

    method CleanExpiredUuids()
      requires Valid()
      modifies this`expired, uuids
      ensures Valid()
      ensures var was := old(Value());
              var n := Stale(was.uuids, was.threshold);
              Value() == was.(uuids := was.uuids[n..], counters := was.counters.(expired := was.counters.expired + n))
    {
      var n := CleanStamps(uuids, ageThresholdMs);
      expired := expired + n;
    }

    method CleanExpiredFailures() returns (destroyed: seq<Msg>)
      requires Valid()
      modifies this`failed, failures
      ensures Valid()
      ensures var was := old(Value());
              var n := StaleParked(was.failures, was.threshold);
              Value() == was.(failures := was.failures[n..],
                              counters := was.counters.(failed := was.counters.failed + n))
      ensures destroyed == Discarded(old(Value()))
    {
      destroyed := CleanParked(failures, ageThresholdMs);
      failed := failed + |destroyed|;
    }

    method CleanExpiredSuccesses()
      requires Valid()
      modifies successes
      ensures Valid()
      ensures var was := old(Value());
              Value() == was.(successes := was.successes[Stale(was.successes, was.threshold)..])
    {
      var _ := CleanStamps(successes, ageThresholdMs);
    }

    /** server_clean_expired_items */
    method CleanExpired() returns (destroyed: seq<Msg>)
      requires Valid()
      modifies this, uuids, failures, successes
      ensures Valid() && Value() == Clean(old(Value()))
      ensures destroyed == Discarded(old(Value()))
    {
      CleanExpiredUuids();
      destroyed := CleanExpiredFailures();
      CleanExpiredSuccesses();
    }

    /** Inserts a uuid that is in no ring: the insert is not refused. */
    method InsertNew(uuid: string)
      requires Valid() && !Has(uuids.contents, uuid)
      modifies this`added, uuids
      ensures Valid()
      ensures var was := old(Value());
              Value() == was.(uuids := was.uuids + [(uuid, was.now)],
                              counters := was.counters.(added := was.counters.added + 1))
    {
      var inserted := uuids.Insert(uuid, currentTimeMs);
      assert inserted;
      added := added + 1;
    }

    /** The backend of a parked frontend message. */
    method AddLate(uuid: string)
      requires Valid() && !Has(uuids.contents, uuid)
      modifies this`added, uuids, failures
      ensures Valid()
      ensures var was := old(Value());
              Value() == was.(uuids := was.uuids + [(uuid, was.now)], failures := Drop(was.failures, uuid),
                              counters := was.counters.(added := was.counters.added + 1))
    {
      var _ := failures.Delete(uuid);
      InsertNew(uuid);
    }

    /** Moves a pending uuid to the successes, keeping its stamp. */
    method MatchPending(uuid: string, stamp: int)
      requires Valid() && Find(uuids.contents, uuid) == Some(stamp) && !Has(successes.contents, uuid)
      modifies this`deleted, uuids, successes
      ensures Valid()
      ensures var was := old(Value());
              Value() == was.(uuids := Drop(was.uuids, uuid), successes := was.successes + [(uuid, stamp)],
                              counters := was.counters.(deleted := was.counters.deleted + 1))
    {
      var _ := uuids.Delete(uuid);
      var inserted := successes.Insert(uuid, stamp);
      assert inserted;
      deleted := deleted + 1;
    }

    /** server_add_uuid; the result is the late frontend message sent back to the subscriber, if any. */
    method AddUuid(uuid: string) returns (sent: Option<Msg>, accepted: bool)
      requires Valid()
      requires DisjointAt(uuids.contents, failures.contents, successes.contents, uuid)
      modifies this, uuids, failures
      ensures Valid() && Value() == Step(old(Value()), Add(uuid)).0
      ensures Step(old(Value()), Add(uuid)).1 ==
              if !accepted then Refused else if sent.Some? then AcceptedLate(sent.value) else Accepted
    {
      sent, accepted := None, true;
      var failure := failures.Lookup(uuid);
      if failure.Some? {
        AddLate(uuid);
        sent := Some(failure.value.msg);
      } else {
        var matched := successes.Lookup(uuid);
        var pending := uuids.Lookup(uuid);
        if matched.Some? || pending.Some? {
          accepted := false;
        } else {
          InsertNew(uuid);
        }
      }
    }

    /** The lookups of server_delete_uuid; no insert into a ring is refused, because the key sets are disjoint. */
    method DeleteCleanedUuid(uuid: string, msg: Msg, ghost destroyed: seq<Msg>)
      returns (reply: nat, ghost outcome: Outcome)
      requires Valid()
      requires DisjointAt(uuids.contents, failures.contents, successes.contents, uuid)
      modifies this, uuids, failures, successes
      ensures Valid()
      ensures (Value(), outcome) == DeleteCleaned(old(Value()), uuid, msg, destroyed)
      ensures reply == if outcome.Matched? then 1 else 0
    {
      reply := 0;
      var seen := uuids.Lookup(uuid);
      if seen.Some? {
        reply := 1;
        MatchPending(uuid, seen.value);
        outcome := Matched(destroyed);
      } else {
        outcome := DeleteUnseen(uuid, msg, destroyed);
      }
    }

    /** A frontend message without its backend request: matched already, or parked. */
    method DeleteUnseen(uuid: string, msg: Msg, ghost destroyed: seq<Msg>) returns (ghost outcome: Outcome)
      requires Valid() && !Has(uuids.contents, uuid)
      modifies this`duplicates, failures
      ensures Valid()
      ensures (Value(), outcome) == DeleteCleaned(old(Value()), uuid, msg, destroyed) && !outcome.Matched?
    {
      var matched := successes.Lookup(uuid);
      var parked := failures.Lookup(uuid);
      if matched.Some? || parked.Some? {
        duplicates := duplicates + 1;
        outcome := Duplicate(destroyed);
      } else {
        var inserted := failures.Insert(uuid, Parked(currentTimeMs, Cleared(msg)));
        assert inserted;
        outcome := ParkedNow(Cleared(msg), destroyed);
      }
    }

    /** server_delete_uuid */
    method DeleteUuid(uuid: string, msg: Msg) returns (reply: nat, ghost outcome: Outcome)
      requires Valid() && Inv(Value())
      modifies this, uuids, failures, successes
      ensures Valid()
      ensures (Value(), outcome) == Step(old(Value()), Delete(uuid, msg))
      ensures reply == if outcome.Matched? then 1 else 0
    {
      CleanKeepsInv(Value());
      var destroyed := CleanExpired();
      ghost var c := Value();
      assert DisjointAt(c.uuids, c.failures, c.successes, uuid);
      reply, outcome := DeleteCleanedUuid(uuid, msg, destroyed);
    }

    method OnTick() returns (report: Counters)
      requires Valid()
      modifies this, uuids, failures, successes
      ensures Valid() && Value() == Step(old(Value()), Tick).0
      ensures Step(old(Value()), Tick).1.counters == report
    {
      ghost var was := Value();
      var _ := CleanExpired();
      assert Value() == Clean(was);
      report := Counters(added, deleted, expired, failed, duplicates);
      added, deleted, expired, failed, duplicates := 0, 0, 0, 0, 0;
    }
  }
}
