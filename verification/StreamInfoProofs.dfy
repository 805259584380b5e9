/**
 * In every interleaving a stream info is freed at most once, never while
 * somebody holds it, and never touched again; it is freed after its last
 * release, unless a reference was lost.
 */
module StreamInfoProofs {
  import opened Options
  import opened StreamInfo

  // ----- counting

  ghost function HoldersOf(holders: map<Holder, Id>, id: Id): (hs: set<Holder>) {
    set h | h in holders && holders[h] == id
  }

  lemma HoldersInsert(m: map<Holder, Id>, h: Holder, id: Id, x: Id)
    requires h !in m
    ensures |HoldersOf(m[h := id], x)| == |HoldersOf(m, x)| + if x == id then 1 else 0
  {
    assert HoldersOf(m[h := id], x) == if x == id then HoldersOf(m, x) + {h} else HoldersOf(m, x);
  }

  lemma HoldersRemove(m: map<Holder, Id>, h: Holder, x: Id)
    requires h in m
    ensures |HoldersOf(m - {h}, x)| == |HoldersOf(m, x)| - if x == m[h] then 1 else 0
  {
    assert (m - {h})[h := m[h]] == m;
    HoldersInsert(m - {h}, h, m[h], x);
  }

  /** The count of an info is the number of its holders, plus the references lost in failed sends. */
  ghost predicate CountedAt(s: State, id: Id) {
    CountOf(s, id) == |HoldersOf(s.holders, id)| + Leaked(s, id)
  }

  ghost predicate IsFreeing(s: State, t: Thread, id: Id) {
    t in s.pcs && s.pcs[t].Freeing? && s.pcs[t].id == id
  }

  ghost predicate Balanced(s: State) {
    && (forall id :: CountedAt(s, id))
    && (forall h :: h in s.holders ==> s.holders[h] in s.infos)
    && (forall id :: id in s.infos && s.infos[id].freed ==> s.infos[id].count == 0)
    && (forall t, id :: IsFreeing(s, t, id) ==> id in s.infos && !s.infos[id].freed && s.infos[id].count == 0)
    && (forall t, u, id :: IsFreeing(s, t, id) && IsFreeing(s, u, id) ==> t == u)
    && (forall id :: id in s.infos && s.infos[id].count == 0 && !s.infos[id].freed ==> exists t :: IsFreeing(s, t, id))
  }

  /** Whoever holds a reference keeps the info alive. */
  lemma HeldIsAlive(s: State, h: Holder)
    requires Balanced(s) && h in s.holders
    ensures var id := s.holders[h]; id in s.infos && !s.infos[id].freed && s.infos[id].count >= 1
  {
    var id := s.holders[h];
    assert CountedAt(s, id);
    assert h in HoldersOf(s.holders, id);
  }

  // ----- places

  predicate InLock(pc: Pc) {
    pc.Locked? || pc.Found? || pc.Counted? || pc.Swapping? || ((pc.Releasing? || pc.Freeing?) && pc.resume.ToSwap?)
  }

  predicate IsBusy(pc: Pc) {
    pc.Counted? || pc.Uncached? || pc.Inserted? || pc.Got? || pc.Releasing? || pc.Sending?
  }

  /** A thread on its way to put an info into its cache. */
  predicate WillCache(pc: Pc, name: string) {
    || ((pc.Locked? || pc.Found? || pc.Counted?) && pc.caching && pc.name == name)
    || (pc.Uncached? && pc.name == name)
  }

  ghost predicate PcOk(s: State, t: Thread, pc: Pc) {
    && (IsBusy(pc) <==> Busy(t) in s.holders)
    && (InLock(pc) <==> s.lock == Some(t))
    && (forall name :: WillCache(pc, name) ==> (t, name) !in s.caches)
    && (pc.Hit? ==> (t, pc.name) in s.caches && s.caches[(t, pc.name)] == pc.id)
    && (pc.Found? ==> Entry(s.configured, pc.name) in s.holders && s.holders[Entry(s.configured, pc.name)] == pc.id)
    && (pc.Inserted? ==>
          (t, pc.name) in s.caches && Busy(t) in s.holders && s.caches[(t, pc.name)] == s.holders[Busy(t)])
    && (pc.Referencing? ==>
          && pc.processor in s.owners && s.owners[pc.processor] == Some(t)
          && Processor(pc.processor) in s.holders && s.holders[Processor(pc.processor)] == pc.id)
  }

  /** A cache entry is counted, unless its thread is just about to count it. */
  ghost predicate CacheOk(s: State, t: Thread, name: string) {
    if (t, name) in s.caches && !(t in s.pcs && s.pcs[t] == Inserted(name))
    then Cached(t, name) in s.holders && s.holders[Cached(t, name)] == s.caches[(t, name)]
    else Cached(t, name) !in s.holders
  }

  ghost predicate Placed(s: State) {
    && (forall t :: t in s.pcs ==> PcOk(s, t, s.pcs[t]))
    && (forall t :: Busy(t) in s.holders ==> t in s.pcs)
    && (forall t, name :: CacheOk(s, t, name))
    && (forall p :: p in s.owners <==> Processor(p) in s.holders)
  }

  ghost predicate Inv(s: State) {
    Safe(s) && Placed(s)
  }

  lemma PlacedIsWf(s: State)
    requires Placed(s)
    ensures Wf(s)
  {
    forall t, name | t in s.pcs && s.pcs[t].Idle? && (t, name) in s.caches ensures Cached(t, name) in s.holders {
      assert CacheOk(s, t, name);
    }
    forall t | t in s.pcs && IsBusy(s.pcs[t]) ensures Busy(t) in s.holders {
      assert PcOk(s, t, s.pcs[t]);
    }
  }

  // ----- counts are kept

  ghost predicate SameFreeing(s: State, s': State) {
    forall t, id :: IsFreeing(s', t, id) <==> IsFreeing(s, t, id)
  }

  lemma KeepBalance(s: State, s': State)
    requires Balanced(s) && SameCounts(s, s')
    ensures Balanced(s')
  {
    forall id ensures CountedAt(s', id) { assert CountedAt(s, id); }
  }

  lemma IncrementBalance(s: State, s': State, id: Id, h: Holder)
    requires Balanced(s) && SameFreeing(s, s') && h !in s.holders
    requires id in s.infos && !s.infos[id].freed && s.infos[id].count >= 1
    requires s'.infos == s.infos[id := Info(s.infos[id].count + 1, false)]
    requires s'.holders == s.holders[h := id] && s'.leaks == s.leaks
    ensures Balanced(s')
  {
    forall x ensures CountedAt(s', x) {
      assert CountedAt(s, x);
      HoldersInsert(s.holders, h, id, x);
    }
  }

  lemma MoveBalance(s: State, s': State, from: Holder, to: Holder)
    requires Balanced(s) && SameFreeing(s, s') && from in s.holders && to !in s.holders
    requires s'.infos == s.infos && s'.leaks == s.leaks
    requires s'.holders == (s.holders - {from})[to := s.holders[from]]
    ensures Balanced(s')
  {
    forall x ensures CountedAt(s', x) {
      assert CountedAt(s, x);
      HoldersRemove(s.holders, from, x);
      HoldersInsert(s.holders - {from}, to, s.holders[from], x);
    }
  }

  lemma DecrementBalance(s: State, t: Thread, resume: Resume)
    requires Balanced(s) && Busy(t) in s.holders && t in s.pcs && !s.pcs[t].Freeing?
    ensures Balanced(Decremented(s, t, resume)) && Decremented(s, t, resume).fault == s.fault
  {
    var s', id := Decremented(s, t, resume), s.holders[Busy(t)];
    HeldIsAlive(s, Busy(t));
    forall x ensures CountedAt(s', x) {
      assert CountedAt(s, x);
      HoldersRemove(s.holders, Busy(t), x);
    }
    forall u, x ensures IsFreeing(s', u, x) <==> IsFreeing(s, u, x) || (u == t && x == id && s.infos[id].count == 1) {
    }
    forall x | x in s'.infos && s'.infos[x].count == 0 && !s'.infos[x].freed ensures exists u :: IsFreeing(s', u, x) {
      if x == id {
        assert IsFreeing(s', t, x);
      } else {
        var u :| IsFreeing(s, u, x);
        assert IsFreeing(s', u, x);
      }
    }
  }

  lemma FreeBalance(s: State, s': State, t: Thread)
    requires Balanced(s) && t in s.pcs && s.pcs[t].Freeing?
    requires var id := s.pcs[t].id;
             && s'.infos == s.infos[id := Info(CountOf(s, id), true)]
             && s'.holders == s.holders && s'.leaks == s.leaks
             && s'.pcs == s.pcs[t := Resumed(s.pcs[t].resume)]
    ensures Balanced(s') && !Freed(s, s.pcs[t].id)
  {
    var id := s.pcs[t].id;
    assert IsFreeing(s, t, id);
    forall x ensures CountedAt(s', x) { assert CountedAt(s, x); }
    forall u, x ensures IsFreeing(s', u, x) <==> IsFreeing(s, u, x) && u != t {
    }
    forall x | x in s'.infos && s'.infos[x].count == 0 && !s'.infos[x].freed ensures exists u :: IsFreeing(s', u, x) {
      var u :| IsFreeing(s, u, x);
      assert IsFreeing(s', u, x);
    }
  }

  lemma LeakBalance(s: State, s': State, h: Holder)
    requires Balanced(s) && SameFreeing(s, s') && h in s.holders
    requires s'.infos == s.infos && s'.holders == s.holders - {h}
    requires s'.leaks == s.leaks[s.holders[h] := Leaked(s, s.holders[h]) + 1]
    ensures Balanced(s')
  {
    forall x ensures CountedAt(s', x) {
      assert CountedAt(s, x);
      HoldersRemove(s.holders, h, x);
    }
  }

  lemma NewBalance(s: State, s': State, id: Id, h: Holder)
    requires Balanced(s) && SameFreeing(s, s') && h !in s.holders && id !in s.infos
    requires s'.infos == s.infos[id := Info(1, false)] && s'.holders == s.holders[h := id] && s'.leaks == s.leaks
    ensures Balanced(s')
  {
    forall x ensures CountedAt(s', x) {
      assert CountedAt(s, x);
      HoldersInsert(s.holders, h, id, x);
    }
  }

  // ----- places are kept

  ghost predicate SameHolder(s: State, s': State, h: Holder) {
    (h in s'.holders <==> h in s.holders) && (h in s.holders ==> s'.holders[h] == s.holders[h])
  }

  /** The holders that threads other than `t` rely on. */
  ghost predicate Foreign(s: State, t: Thread, h: Holder) {
    match h
    case Entry(table, _) => table == s.configured && s.lock.Some? && s.lock != Some(t)
    case Cached(u, _) => u != t
    case Busy(u) => u != t
    case Local(_, _) => false
    case Processor(p) => p in s.owners && s.owners[p].Some? && s.owners[p] != Some(t)
    case Message(_) => false
  }

  /** A step of thread `t` leaves to the other threads what they rely on. */
  ghost predicate Frame(s: State, s': State, t: Thread) {
    && t in s.pcs && t in s'.pcs && s'.pcs == s.pcs[t := s'.pcs[t]]
    && (forall h :: Foreign(s, t, h) ==> SameHolder(s, s', h))
    && (forall u, name :: u != t ==> ((u, name) in s'.caches <==> (u, name) in s.caches))
    && (forall u, name :: u != t && (u, name) in s.caches ==> s'.caches[(u, name)] == s.caches[(u, name)])
    && (forall u :: u != t ==> (s'.lock == Some(u) <==> s.lock == Some(u)))
    && (s.lock.Some? && s.lock != Some(t) ==> s'.configured == s.configured)
    && (forall p :: p in s.owners && s.owners[p].Some? && s.owners[p] != Some(t) ==>
          p in s'.owners && s'.owners[p] == s.owners[p])
  }

  lemma OtherPcOk(s: State, s': State, t: Thread, u: Thread)
    requires Placed(s) && Frame(s, s', t) && u != t && u in s.pcs
    ensures PcOk(s', u, s.pcs[u])
  {
    var pc := s.pcs[u];
    assert PcOk(s, u, pc);
    assert SameHolder(s, s', Busy(u));
    if pc.Found? { assert SameHolder(s, s', Entry(s.configured, pc.name)); }
    if pc.Referencing? { assert SameHolder(s, s', Processor(pc.processor)); }
  }

  /** A step keeps everything in place when its own thread's place is right afterwards. */
  lemma FramePlaced(s: State, s': State, t: Thread)
    requires Placed(s) && Frame(s, s', t)
    requires PcOk(s', t, s'.pcs[t]) && (forall name :: CacheOk(s', t, name))
    requires forall p :: p in s'.owners <==> Processor(p) in s'.holders
    ensures Placed(s')
  {
    forall u | u in s'.pcs ensures PcOk(s', u, s'.pcs[u]) {
      if u != t { OtherPcOk(s, s', t, u); }
    }
    forall u, name ensures CacheOk(s', u, name) {
      if u != t {
        assert CacheOk(s, u, name);
        assert SameHolder(s, s', Cached(u, name));
      }
    }
    forall u | Busy(u) in s'.holders ensures u in s'.pcs {
      if u != t { assert SameHolder(s, s', Busy(u)); }
    }
  }

  lemma OwnCaches(s: State, s': State, t: Thread, changed: set<string>)
    requires Placed(s) && t in s.pcs && t in s'.pcs && !s.pcs[t].Inserted? && !s'.pcs[t].Inserted?
    requires forall name :: name !in changed ==> SameHolder(s, s', Cached(t, name))
    requires forall name :: name !in changed ==> ((t, name) in s'.caches <==> (t, name) in s.caches)
    requires forall name :: name !in changed && (t, name) in s.caches ==> s'.caches[(t, name)] == s.caches[(t, name)]
    requires forall name :: name in changed ==> CacheOk(s', t, name)
    ensures forall name :: CacheOk(s', t, name)
  {
    forall name ensures CacheOk(s', t, name) {
      assert CacheOk(s, t, name);
      if name !in changed { assert SameHolder(s, s', Cached(t, name)); }
    }
  }

  /** Steps that change only references of the running thread and leave its cache alone. */
  lemma RefPlaced(s: State, s': State, t: Thread, changed: set<Holder>)
    requires Placed(s) && t in s.pcs && t in s'.pcs && s'.pcs == s.pcs[t := s'.pcs[t]]
    requires forall h :: h !in changed ==> SameHolder(s, s', h)
    requires forall h :: h in changed ==> !Foreign(s, t, h) && !h.Cached?
    requires s'.caches == s.caches
    requires s'.lock == s.lock || (s.lock.None? && s'.lock == Some(t)) || (s.lock == Some(t) && s'.lock.None?)
    requires s.lock.Some? && s.lock != Some(t) ==> s'.configured == s.configured
    requires forall p :: p in s'.owners <==> Processor(p) in s'.holders
    requires forall p :: p in s.owners && s.owners[p].Some? && s.owners[p] != Some(t) ==>
                           p in s'.owners && s'.owners[p] == s.owners[p]
    requires PcOk(s', t, s'.pcs[t]) && !s.pcs[t].Inserted? && !s'.pcs[t].Inserted?
    ensures Placed(s')
  {
    OwnCaches(s, s', t, {});
    FramePlaced(s, s', t);
  }

  lemma CacheLookupStep(s: State, step: Step)
    requires Placed(s) && Wf(s) && Enabled(s, step)
    requires step.CacheHit? || step.Unlock?
    ensures Placed(Do(s, step))
  {
    assert PcOk(s, step.t, s.pcs[step.t]);
    RefPlaced(s, Do(s, step), step.t, {});
  }

  lemma TableLookupStep(s: State, step: Step)
    requires Placed(s) && Wf(s) && Enabled(s, step)
    requires step.LookUp? || step.Miss?
    ensures Placed(Do(s, step))
  {
    assert PcOk(s, step.t, s.pcs[step.t]);
    RefPlaced(s, Do(s, step), step.t, {});
  }

  lemma InstallStep(s: State, step: Step)
    requires Placed(s) && Wf(s) && Enabled(s, step)
    requires step.Install?
    ensures Placed(Do(s, step))
  {
    assert PcOk(s, step.t, s.pcs[step.t]);
    RefPlaced(s, Do(s, step), step.t, {});
  }

  lemma LockStep(s: State, step: Step)
    requires Placed(s) && Wf(s) && Enabled(s, step)
    requires step.Lock? || step.StartSwap?
    ensures Placed(Do(s, step))
  {
    assert PcOk(s, step.t, s.pcs[step.t]);
    RefPlaced(s, Do(s, step), step.t, {});
  }

  lemma ProcessorStep(s: State, step: Step)
    requires Placed(s) && Wf(s) && Enabled(s, step)
    requires step.PassProcessor? || step.TakeProcessor? || step.ReadProcessor?
    ensures Placed(Do(s, step))
  {
    assert PcOk(s, step.t, s.pcs[step.t]);
    RefPlaced(s, Do(s, step), step.t, {});
  }

  lemma FailureStep(s: State, step: Step)
    requires Placed(s) && Wf(s) && Enabled(s, step)
    requires step.SendFails? || step.Free?
    ensures Placed(Do(s, step))
  {
    assert PcOk(s, step.t, s.pcs[step.t]);
    RefPlaced(s, Do(s, step), step.t, {});
  }

  lemma CountStep(s: State, step: Step)
    requires Placed(s) && Wf(s) && Enabled(s, step)
    requires step.CountHit? || step.CountFound?
    ensures Placed(Do(s, step))
  {
    assert PcOk(s, step.t, s.pcs[step.t]);
    RefPlaced(s, Do(s, step), step.t, {Busy(step.t)});
  }

  lemma ReferenceStep(s: State, step: Step)
    requires Placed(s) && Wf(s) && Enabled(s, step)
    requires step.Reference?
    ensures Placed(Do(s, step))
  {
    assert PcOk(s, step.t, s.pcs[step.t]);
    RefPlaced(s, Do(s, step), step.t, {Busy(step.t)});
  }

  lemma DecrementStep(s: State, step: Step)
    requires Placed(s) && Wf(s) && Enabled(s, step)
    requires step.Decrement?
    ensures Placed(Do(s, step))
  {
    assert PcOk(s, step.t, s.pcs[step.t]);
    RefPlaced(s, Do(s, step), step.t, {Busy(step.t)});
  }

  lemma LeakStep(s: State, step: Step)
    requires Placed(s) && Wf(s) && Enabled(s, step)
    requires step.SendFailsSilently?
    ensures Placed(Do(s, step))
  {
    assert PcOk(s, step.t, s.pcs[step.t]);
    RefPlaced(s, Do(s, step), step.t, {Busy(step.t)});
  }

  lemma NewInfoStep(s: State, t: Thread, name: string, id: Id)
    requires Placed(s) && Wf(s) && Enabled(s, NewInfo(t, name, id))
    ensures Placed(Do(s, NewInfo(t, name, id)))
  {
    assert PcOk(s, t, s.pcs[t]);
    RefPlaced(s, Do(s, NewInfo(t, name, id)), t, {Entry(s.configured + 1, name)});
  }

  /** The two ends of a step that hands a reference from one place to another. */
  function Moved(s: State, step: Step): (ends: Option<(Holder, Holder)>) {
    match step
    case Return(t, slot) => Some((Busy(t), Local(t, slot)))
    case Release(t, slot) => Some((Local(t, slot), Busy(t)))
    case GiveToProcessor(t, slot, p) => Some((Local(t, slot), Processor(p)))
    case DestroyProcessor(t, p) => Some((Processor(p), Busy(t)))
    case Send(t, m) => Some((Busy(t), Message(m)))
    case Receive(t, m, slot) => Some((Message(m), Local(t, slot)))
    case DropConfig(t, name) => Some((Entry(s.configured, name), Busy(t)))
    case DropCached(t, name) => Some((Cached(t, name), Busy(t)))
    case _ => None
  }

  lemma ReturnStep(s: State, step: Step)
    requires Placed(s) && Wf(s) && Enabled(s, step)
    requires step.Return?
    ensures Placed(Do(s, step))
  {
    assert PcOk(s, step.t, s.pcs[step.t]);
    var (from, to) := Moved(s, step).value;
    RefPlaced(s, Do(s, step), step.t, {from, to});
  }

  lemma ReleaseStep(s: State, step: Step)
    requires Placed(s) && Wf(s) && Enabled(s, step)
    requires step.Release?
    ensures Placed(Do(s, step))
  {
    assert PcOk(s, step.t, s.pcs[step.t]);
    var (from, to) := Moved(s, step).value;
    RefPlaced(s, Do(s, step), step.t, {from, to});
  }

  lemma SendStep(s: State, step: Step)
    requires Placed(s) && Wf(s) && Enabled(s, step)
    requires step.Send?
    ensures Placed(Do(s, step))
  {
    assert PcOk(s, step.t, s.pcs[step.t]);
    var (from, to) := Moved(s, step).value;
    RefPlaced(s, Do(s, step), step.t, {from, to});
  }

  lemma ReceiveStep(s: State, step: Step)
    requires Placed(s) && Wf(s) && Enabled(s, step)
    requires step.Receive?
    ensures Placed(Do(s, step))
  {
    assert PcOk(s, step.t, s.pcs[step.t]);
    var (from, to) := Moved(s, step).value;
    RefPlaced(s, Do(s, step), step.t, {from, to});
  }

  lemma GiveStep(s: State, step: Step)
    requires Placed(s) && Wf(s) && Enabled(s, step)
    requires step.GiveToProcessor?
    ensures Placed(Do(s, step))
  {
    assert PcOk(s, step.t, s.pcs[step.t]);
    var (from, to) := Moved(s, step).value;
    RefPlaced(s, Do(s, step), step.t, {from, to});
  }

  lemma DestroyStep(s: State, step: Step)
    requires Placed(s) && Wf(s) && Enabled(s, step)
    requires step.DestroyProcessor?
    ensures Placed(Do(s, step))
  {
    assert PcOk(s, step.t, s.pcs[step.t]);
    var (from, to) := Moved(s, step).value;
    RefPlaced(s, Do(s, step), step.t, {from, to});
  }

  lemma DropConfigStep(s: State, step: Step)
    requires Placed(s) && Wf(s) && Enabled(s, step)
    requires step.DropConfig?
    ensures Placed(Do(s, step))
  {
    assert PcOk(s, step.t, s.pcs[step.t]);
    var (from, to) := Moved(s, step).value;
    RefPlaced(s, Do(s, step), step.t, {from, to});
  }

  lemma DropCachedStep(s: State, t: Thread, name: string)
    requires Placed(s) && Wf(s) && Enabled(s, DropCached(t, name))
    ensures Placed(Do(s, DropCached(t, name)))
  {
    var s' := Do(s, DropCached(t, name));
    assert PcOk(s, t, s.pcs[t]);
    assert forall h :: h != Cached(t, name) && h != Busy(t) ==> SameHolder(s, s', h);
    OwnCaches(s, s', t, {name});
    FramePlaced(s, s', t);
  }

  lemma InsertStep(s: State, t: Thread)
    requires Placed(s) && Wf(s) && Enabled(s, Insert(t))
    ensures Placed(Do(s, Insert(t)))
  {
    var s' := Do(s, Insert(t));
    assert PcOk(s, t, s.pcs[t]);
    forall name ensures CacheOk(s', t, name) { assert CacheOk(s, t, name); }
    FramePlaced(s, s', t);
  }

  lemma CountInsertedStep(s: State, t: Thread)
    requires Placed(s) && Wf(s) && Enabled(s, CountInserted(t))
    ensures Placed(Do(s, CountInserted(t)))
  {
    var s' := Do(s, CountInserted(t));
    assert PcOk(s, t, s.pcs[t]);
    forall name ensures CacheOk(s', t, name) { assert CacheOk(s, t, name); }
    FramePlaced(s, s', t);
  }

  lemma LookupsKeepPlaced(s: State, step: Step)
    requires Placed(s) && Wf(s) && Enabled(s, step) && (Quiet(step) || Counts(step))
    ensures Placed(Do(s, step))
  {
    if step.CacheHit? || step.Unlock? {
      CacheLookupStep(s, step);
    } else if step.LookUp? || step.Miss? {
      TableLookupStep(s, step);
    } else if step.Lock? || step.StartSwap? {
      LockStep(s, step);
    } else if step.Install? {
      InstallStep(s, step);
    } else if step.SendFails? {
      FailureStep(s, step);
    } else if step.Insert? {
      InsertStep(s, step.t);
    } else if step.CountInserted? {
      CountInsertedStep(s, step.t);
    } else if step.Reference? {
      ReferenceStep(s, step);
    } else if Counts(step) {
      CountStep(s, step);
    } else {
      ProcessorStep(s, step);
    }
  }

  lemma MovesKeepPlaced(s: State, step: Step)
    requires Placed(s) && Wf(s) && Enabled(s, step) && Moved(s, step).Some?
    ensures Placed(Do(s, step))
  {
    if step.DropCached? {
      DropCachedStep(s, step.t, step.name);
    } else if step.DropConfig? {
      DropConfigStep(s, step);
    } else if step.Send? {
      SendStep(s, step);
    } else if step.Receive? {
      ReceiveStep(s, step);
    } else if step.Return? {
      ReturnStep(s, step);
    } else if step.Release? {
      ReleaseStep(s, step);
    } else if step.GiveToProcessor? {
      GiveStep(s, step);
    } else {
      DestroyStep(s, step);
    }
  }

  /** Every step leaves the caches, registers, lock and processors in an orderly state. */
  lemma StepKeepsPlaced(s: State, step: Step)
    requires Placed(s) && Wf(s) && Enabled(s, step)
    ensures Placed(Do(s, step))
  {
    if Quiet(step) || Counts(step) {
      LookupsKeepPlaced(s, step);
    } else if Moved(s, step).Some? {
      MovesKeepPlaced(s, step);
    } else if step.Decrement? {
      DecrementStep(s, step);
    } else if step.Free? {
      FailureStep(s, step);
    } else if step.NewInfo? {
      NewInfoStep(s, step.t, step.name, step.id);
    } else {
      LeakStep(s, step);
    }
  }

  // ----- every step keeps the counts

  ghost predicate Safe(s: State) { !s.fault && Balanced(s) }

  predicate Quiet(step: Step) {
    || step.CacheHit? || step.Lock? || step.LookUp? || step.Miss? || step.Unlock? || step.Insert?
    || step.PassProcessor? || step.TakeProcessor? || step.ReadProcessor? || step.SendFails?
    || step.StartSwap? || step.Install?
  }

  predicate Counts(step: Step) {
    step.CountHit? || step.CountFound? || step.CountInserted? || step.Reference?
  }

  ghost predicate SameCounts(s: State, s': State) {
    s'.infos == s.infos && s'.holders == s.holders && s'.leaks == s.leaks && s'.fault == s.fault && SameFreeing(s, s')
  }

  lemma CachesNotCounts(s: State, step: Step)
    requires Wf(s) && Enabled(s, step)
    requires step.CacheHit? || step.Insert?
    ensures SameCounts(s, Do(s, step))
  {
  }

  lemma LookupsNotCounts(s: State, step: Step)
    requires Wf(s) && Enabled(s, step)
    requires step.LookUp? || step.Miss? || step.Unlock?
    ensures SameCounts(s, Do(s, step))
  {
  }

  lemma LocksNotCounts(s: State, step: Step)
    requires Wf(s) && Enabled(s, step)
    requires step.Lock? || step.StartSwap? || step.Install?
    ensures SameCounts(s, Do(s, step))
  {
  }

  lemma OwnersNotCounts(s: State, step: Step)
    requires Wf(s) && Enabled(s, step)
    requires step.PassProcessor? || step.TakeProcessor?
    ensures SameCounts(s, Do(s, step))
  {
  }

  lemma ReadsNotCounts(s: State, step: Step)
    requires Wf(s) && Enabled(s, step)
    requires step.ReadProcessor? || step.SendFails?
    ensures SameCounts(s, Do(s, step))
  {
  }

  lemma QuietEffect(s: State, step: Step)
    requires Wf(s) && Enabled(s, step) && Quiet(step)
    ensures SameCounts(s, Do(s, step))
  {
    if step.CacheHit? || step.Insert? {
      CachesNotCounts(s, step);
    } else if step.LookUp? || step.Miss? || step.Unlock? {
      LookupsNotCounts(s, step);
    } else if step.PassProcessor? || step.TakeProcessor? {
      OwnersNotCounts(s, step);
    } else if step.ReadProcessor? || step.SendFails? {
      ReadsNotCounts(s, step);
    } else {
      LocksNotCounts(s, step);
    }
  }

  /** A step of a thread that counts a reference it has read at `via`, which still holds it, keeps the info alive. */
  lemma CountSafe(s: State, s': State, id: Id, via: Holder, to: Holder)
    requires Safe(s) && SameFreeing(s, s') && via in s.holders && s.holders[via] == id && to !in s.holders
    requires var counted := Increment(s, id, to);
             && s'.infos == counted.infos && s'.holders == counted.holders && s'.fault == counted.fault
             && s'.leaks == s.leaks
    ensures Safe(s')
  {
    HeldIsAlive(s, via);
    IncrementBalance(s, s', id, to);
  }

  lemma CacheCountsAreSafe(s: State, step: Step)
    requires Safe(s) && Placed(s) && Wf(s) && Enabled(s, step) && (step.CountHit? || step.CountInserted?)
    ensures Safe(Do(s, step))
  {
    var t, pc, s' := step.t, s.pcs[step.t], Do(s, step);
    assert PcOk(s, t, pc);
    assert CacheOk(s, t, pc.name);
    if step.CountHit? {
      CountSafe(s, s', pc.id, Cached(t, pc.name), Busy(t));
    } else {
      CountSafe(s, s', s.holders[Busy(t)], Busy(t), Cached(t, pc.name));
    }
  }

  lemma SharedCountsAreSafe(s: State, step: Step)
    requires Safe(s) && Placed(s) && Wf(s) && Enabled(s, step) && (step.CountFound? || step.Reference?)
    ensures Safe(Do(s, step))
  {
    var t, pc, s' := step.t, s.pcs[step.t], Do(s, step);
    assert PcOk(s, t, pc);
    var via := if step.CountFound? then Entry(s.configured, pc.name) else Processor(pc.processor);
    CountSafe(s, s', pc.id, via, Busy(t));
  }

  lemma CountsAreSafe(s: State, step: Step)
    requires Safe(s) && Placed(s) && Wf(s) && Enabled(s, step) && Counts(step)
    ensures Safe(Do(s, step))
  {
    if step.CountHit? || step.CountInserted? {
      CacheCountsAreSafe(s, step);
    } else {
      SharedCountsAreSafe(s, step);
    }
  }

  lemma MoveEffect(s: State, step: Step)
    requires Placed(s) && Wf(s) && Enabled(s, step) && Moved(s, step).Some?
    ensures var s', (from, to) := Do(s, step), Moved(s, step).value;
            && from in s.holders && to !in s.holders && s'.holders == (s.holders - {from})[to := s.holders[from]]
            && s'.infos == s.infos && s'.leaks == s.leaks && s'.fault == s.fault && SameFreeing(s, s')
  {
    assert PcOk(s, step.t, s.pcs[step.t]);
  }

  lemma StepIsSafe(s: State, step: Step)
    requires Safe(s) && Placed(s) && Wf(s) && Enabled(s, step)
    ensures Safe(Do(s, step))
  {
    var s' := Do(s, step);
    if Quiet(step) {
      QuietEffect(s, step);
      KeepBalance(s, s');
    } else if Counts(step) {
      CountsAreSafe(s, step);
    } else if Moved(s, step).Some? {
      MoveEffect(s, step);
      var (from, to) := Moved(s, step).value;
      MoveBalance(s, s', from, to);
    } else if step.Decrement? {
      DecrementBalance(s, step.t, s.pcs[step.t].resume);
    } else if step.Free? {
      FreeBalance(s, s', step.t);
    } else if step.NewInfo? {
      assert PcOk(s, step.t, s.pcs[step.t]);
      NewBalance(s, s', step.id, Entry(s.configured + 1, step.name));
    } else {
      LeakBalance(s, s', Busy(step.t));
    }
  }

  lemma StepKeepsInv(s: State, step: Step)
    requires Inv(s) && Wf(s) && Enabled(s, step)
    ensures Inv(Do(s, step)) && Wf(Do(s, step))
  {
    StepKeepsPlaced(s, step);
    StepIsSafe(s, step);
    PlacedIsWf(Do(s, step));
  }

  // ----- whole runs

  ghost predicate Run(s: State, steps: seq<Step>)
    decreases |steps|
  {
    steps == [] || (Wf(s) && Enabled(s, steps[0]) && Run(Do(s, steps[0]), steps[1..]))
  }

  ghost function After(s: State, steps: seq<Step>): (s': State)
    requires Run(s, steps)
    decreases |steps|
  {
    if steps == [] then s else After(Do(s, steps[0]), steps[1..])
  }

  ghost predicate IsFreed(s: State, id: Id) { id in s.infos && s.infos[id].freed }

  /** How often a run frees an info. */
  ghost function Frees(s: State, steps: seq<Step>, id: Id): (n: nat)
    requires Run(s, steps)
    decreases |steps|
  {
    if steps == [] then 0
    else (if steps[0].Free? && s.pcs[steps[0].t].id == id then 1 else 0) + Frees(Do(s, steps[0]), steps[1..], id)
  }

  lemma CountsDoNotFree(s: State, step: Step, id: Id)
    requires Inv(s) && Wf(s) && Enabled(s, step) && Counts(step)
    ensures IsFreed(Do(s, step), id) == IsFreed(s, id)
  {
    CountsAreSafe(s, step);
  }

  /** Decrements, lost references and new infos do not free. */
  lemma OthersDoNotFree(s: State, step: Step, id: Id)
    requires Inv(s) && Wf(s) && Enabled(s, step) && (step.Decrement? || step.SendFailsSilently? || step.NewInfo?)
    ensures IsFreed(Do(s, step), id) == IsFreed(s, id)
  {
    if step.Decrement? { HeldIsAlive(s, Busy(step.t)); }
  }

  lemma FreesOnce(s: State, step: Step, id: Id)
    requires Inv(s) && Wf(s) && Enabled(s, step) && step.Free?
    ensures var frees := s.pcs[step.t].id == id;
            && (IsFreed(Do(s, step), id) <==> IsFreed(s, id) || frees)
            && !(IsFreed(s, id) && frees)
  {
    FreeBalance(s, Do(s, step), step.t);
  }

  lemma StepFrees(s: State, step: Step, id: Id)
    requires Inv(s) && Wf(s) && Enabled(s, step)
    ensures var frees := step.Free? && s.pcs[step.t].id == id;
            && (IsFreed(Do(s, step), id) <==> IsFreed(s, id) || frees)
            && !(IsFreed(s, id) && frees)
  {
    if Quiet(step) {
      QuietEffect(s, step);
    } else if Counts(step) {
      CountsDoNotFree(s, step, id);
    } else if Moved(s, step).Some? {
      MoveEffect(s, step);
    } else if step.Free? {
      FreesOnce(s, step, id);
    } else {
      OthersDoNotFree(s, step, id);
    }
  }

  lemma {:induction false} RunKeepsInv(s: State, steps: seq<Step>, id: Id)
    requires Inv(s) && Wf(s) && Run(s, steps)
    ensures Inv(After(s, steps)) && Wf(After(s, steps))
    ensures Frees(s, steps, id) + (if IsFreed(s, id) then 1 else 0) == if IsFreed(After(s, steps), id) then 1 else 0
    decreases |steps|
  {
    if steps != [] {
      StepKeepsInv(s, steps[0]);
      StepFrees(s, steps[0], id);
      RunKeepsInv(Do(s, steps[0]), steps[1..], id);
    }
  }

  lemma StartIsInv(threads: set<Thread>)
    ensures Inv(Start(threads)) && Wf(Start(threads))
  {
    var s := Start(threads);
    forall id ensures CountedAt(s, id) { assert HoldersOf(s.holders, id) == {}; }
    PlacedIsWf(s);
  }

  /**
   * After every interleaving of lookups, swaps, hand-overs and releases: no
   * step has touched freed memory; a held info is alive and its count is the
   * number of its holders and lost references; and an info nobody holds has
   * been freed once, or is being freed by one thread, if and only if no
   * reference to it was lost.
   */
  lemma CountsAreExact(threads: set<Thread>, steps: seq<Step>, id: Id)
    requires Run(Start(threads), steps)
    ensures var s := After(Start(threads), steps);
            && !s.fault
            && CountOf(s, id) == |HoldersOf(s.holders, id)| + Leaked(s, id)
            && (HoldersOf(s.holders, id) != {} ==> id in s.infos && !s.infos[id].freed)
            && (id in s.infos && HoldersOf(s.holders, id) == {} ==>
                  (Leaked(s, id) == 0 <==> IsFreed(s, id) || exists t :: IsFreeing(s, t, id)))
            && (forall t, u :: IsFreeing(s, t, id) && IsFreeing(s, u, id) ==> t == u)
            && Frees(Start(threads), steps, id) == if IsFreed(s, id) then 1 else 0
  {
    StartIsInv(threads);
    RunKeepsInv(Start(threads), steps, id);
    var s := After(Start(threads), steps);
    assert CountedAt(s, id);
    if h :| h in HoldersOf(s.holders, id) { HeldIsAlive(s, h); }
  }
}
