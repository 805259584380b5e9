/**
 * Reference counting of stream infos as a state machine of small interleaved
 * steps: lookups in the locked global table and in unlocked thread-local
 * caches, configuration swaps, hand-overs inside processors and messages, and
 * releases. Every step that reads or writes a count of freed memory, or frees
 * it again, raises `fault`.
 */
module StreamInfo {
  import opened Options

  type Id = nat
  type Thread = nat

  /** Where a counted reference is kept. */
  datatype Holder =
    | Entry(table: nat, name: string)       // an entry of a stream table
    | Cached(thread: Thread, name: string)  // an entry of a thread's stream_info_cache
    | Busy(thread: Thread)                  // in a register of a running thread
    | Local(thread: Thread, slot: nat)      // a reference a thread got and has not yet released
    | Processor(processor: nat)             // the stream_info of a processor
    | Message(message: nat)                 // a pointer inside a message

  /** What to do after a release. */
  datatype Resume = ToIdle | ToSwap

  datatype Pc =
    | Idle
    | Hit(name: string, id: Id)                  // found in the cache, not yet counted
    | Locked(name: string, caching: bool)        // inside the lock, before the lookup
    | Found(name: string, caching: bool, id: Id) // inside the lock, not yet counted
    | Counted(name: string, caching: bool)       // inside the lock, counted
    | Uncached(name: string)                     // after the lock, before the cache insert
    | Inserted(name: string)                     // in the cache, the cache's own reference not yet counted
    | Got                                        // get_stream_info returns
    | Releasing(resume: Resume)                  // about to decrement
    | Freeing(id: Id, resume: Resume)            // decremented the last reference, about to free
    | Referencing(processor: nat, id: Id)        // read a processor's pointer, not yet counted
    | Sending                                    // counted, message not yet sent
    | Swapping                                   // config updater inside the lock

  datatype Info = Info(count: int, freed: bool)

  datatype State = State(
    infos: map<Id, Info>,
    holders: map<Holder, Id>,
    caches: map<(Thread, string), Id>,
    pcs: map<Thread, Pc>,
    lock: Option<Thread>,
    configured: nat,                   // the table configured_streams points to; the next one is being built
    owners: map<nat, Option<Thread>>,  // the thread that has a processor; None while it travels in a message
    leaks: map<Id, nat>,
    fault: bool)

  datatype Step =
    | CacheHit(t: Thread, name: string)
    | CountHit(t: Thread)
    | Lock(t: Thread, name: string, caching: bool)
    | LookUp(t: Thread)
    | Miss(t: Thread)
    | CountFound(t: Thread)
    | Unlock(t: Thread)
    | Insert(t: Thread)
    | CountInserted(t: Thread)
    | Return(t: Thread, slot: nat)
    | Release(t: Thread, slot: nat)
    | DropCached(t: Thread, name: string)
    | Decrement(t: Thread)
    | Free(t: Thread)
    | GiveToProcessor(t: Thread, slot: nat, processor: nat)
    | PassProcessor(t: Thread, processor: nat)
    | TakeProcessor(t: Thread, processor: nat)
    | DestroyProcessor(t: Thread, processor: nat)
    | ReadProcessor(t: Thread, processor: nat)
    | Reference(t: Thread)
    | Send(t: Thread, message: nat)
    | SendFails(t: Thread)
    | SendFailsSilently(t: Thread)
    | Receive(t: Thread, message: nat, slot: nat)
    | NewInfo(t: Thread, name: string, id: Id)
    | StartSwap(t: Thread)
    | DropConfig(t: Thread, name: string)
    | Install(t: Thread)

  function Start(threads: set<Thread>): (s: State) {
    State(map[], map[], map[], map t | t in threads :: Idle, None, 0, map[], map[], false)
  }

  // ----- what steps do

  function At(s: State, t: Thread): (pc: Pc) {
    if t in s.pcs then s.pcs[t] else Idle
  }

  function Freed(s: State, id: Id): (b: bool) {
    id !in s.infos || s.infos[id].freed
  }

  function CountOf(s: State, id: Id): (n: int) {
    if id in s.infos then s.infos[id].count else 0
  }

  /** An atomic increment, on behalf of a new holder. */
  function Increment(s: State, id: Id, h: Holder): (s': State) {
    s.(infos := s.infos[id := Info(CountOf(s, id) + 1, Freed(s, id))],
       holders := s.holders[h := id],
       fault := s.fault || Freed(s, id))
  }

  /** A reference changes its place. */
  function Move(s: State, from: Holder, to: Holder): (s': State)
    requires from in s.holders
  {
    s.(holders := (s.holders - {from})[to := s.holders[from]])
  }

  function Goto(s: State, t: Thread, pc: Pc): (s': State) { s.(pcs := s.pcs[t := pc]) }

  function Resumed(resume: Resume): (pc: Pc) { if resume.ToIdle? then Idle else Swapping }

  ghost predicate Enabled(s: State, step: Step) {
    && step.t in s.pcs
    && var pc := s.pcs[step.t];
       match step
       case CacheHit(t, name) => pc.Idle? && (t, name) in s.caches
       case CountHit(_) => pc.Hit?
       case Lock(t, name, caching) => pc.Idle? && s.lock.None? && (caching ==> (t, name) !in s.caches)
       case LookUp(_) => pc.Locked? && Entry(s.configured, pc.name) in s.holders
       case Miss(_) => pc.Locked? && Entry(s.configured, pc.name) !in s.holders
       case CountFound(_) => pc.Found?
       case Unlock(_) => pc.Counted?
       case Insert(_) => pc.Uncached?
       case CountInserted(_) => pc.Inserted?
       case Return(t, slot) => pc.Got? && Local(t, slot) !in s.holders
       case Release(t, slot) => pc.Idle? && Local(t, slot) in s.holders
       case DropCached(t, name) => pc.Idle? && (t, name) in s.caches
       case Decrement(_) => pc.Releasing?
       case Free(_) => pc.Freeing?
       case GiveToProcessor(t, slot, p) => pc.Idle? && Local(t, slot) in s.holders && p !in s.owners
       case PassProcessor(t, p) => pc.Idle? && p in s.owners && s.owners[p] == Some(t)
       case TakeProcessor(t, p) => pc.Idle? && p in s.owners && s.owners[p] == None
       case DestroyProcessor(t, p) => pc.Idle? && p in s.owners && s.owners[p] == Some(t)
       case ReadProcessor(t, p) => pc.Idle? && p in s.owners && s.owners[p] == Some(t)
       case Reference(_) => pc.Referencing?
       case Send(_, m) => pc.Sending? && Message(m) !in s.holders
       case SendFails(_) => pc.Sending?
       case SendFailsSilently(_) => pc.Sending?
       case Receive(t, m, slot) => pc.Idle? && Message(m) in s.holders && Local(t, slot) !in s.holders
       case NewInfo(_, name, id) => pc.Idle? && Entry(s.configured + 1, name) !in s.holders && id !in s.infos
       case StartSwap(_) => pc.Idle? && s.lock.None?
       case DropConfig(_, name) => pc.Swapping? && Entry(s.configured, name) in s.holders
       case Install(_) => pc.Swapping? && forall name :: Entry(s.configured, name) !in s.holders
  }

  ghost function Do(s: State, step: Step): (s': State)
    requires Enabled(s, step) && Wf(s)
  {
    var t := step.t;
    var pc := s.pcs[t];
    match step
    // get_stream_info
    case CacheHit(_, name) => Goto(s, t, Hit(name, s.caches[(t, name)]))
    case CountHit(_) => Goto(Increment(s, pc.id, Busy(t)), t, Got)
    case Lock(_, name, caching) => Goto(s, t, Locked(name, caching)).(lock := Some(t))
    case LookUp(_) => Goto(s, t, Found(pc.name, pc.caching, s.holders[Entry(s.configured, pc.name)]))
    case Miss(_) => Goto(s, t, Idle).(lock := None)
    case CountFound(_) => Goto(Increment(s, pc.id, Busy(t)), t, Counted(pc.name, pc.caching))
    case Unlock(_) => Goto(s, t, if pc.caching then Uncached(pc.name) else Got).(lock := None)
    case Insert(_) => Goto(s, t, Inserted(pc.name)).(caches := s.caches[(t, pc.name) := s.holders[Busy(t)]])
    case CountInserted(_) => Goto(Increment(s, s.holders[Busy(t)], Cached(t, pc.name)), t, Got)
    case Return(_, slot) => Goto(Move(s, Busy(t), Local(t, slot)), t, Idle)
    // release_stream_info
    case Release(_, slot) => Goto(Move(s, Local(t, slot), Busy(t)), t, Releasing(ToIdle))
    case DropCached(_, name) =>
      Goto(Move(s, Cached(t, name), Busy(t)), t, Releasing(ToIdle)).(caches := s.caches - {(t, name)})
    case Decrement(_) => Decremented(s, t, pc.resume)
    case Free(_) =>
      Goto(s, t, Resumed(pc.resume)).(infos := s.infos[pc.id := Info(CountOf(s, pc.id), true)],
                                      fault := s.fault || Freed(s, pc.id))
    // processors
    case GiveToProcessor(_, slot, p) => Move(s, Local(t, slot), Processor(p)).(owners := s.owners[p := Some(t)])
    case PassProcessor(_, p) => s.(owners := s.owners[p := None])
    case TakeProcessor(_, p) => s.(owners := s.owners[p := Some(t)])
    case DestroyProcessor(_, p) =>
      Goto(Move(s, Processor(p), Busy(t)), t, Releasing(ToIdle)).(owners := s.owners - {p})
    // messages
    case ReadProcessor(_, p) => Goto(s, t, Referencing(p, s.holders[Processor(p)]))
    case Reference(_) => Goto(Increment(s, pc.id, Busy(t)), t, Sending)
    case Send(_, m) => Goto(Move(s, Busy(t), Message(m)), t, Idle)
    case SendFails(_) => Goto(s, t, Releasing(ToIdle))
    case SendFailsSilently(_) =>
      var id := s.holders[Busy(t)];
      Goto(s, t, Idle).(holders := s.holders - {Busy(t)}, leaks := s.leaks[id := Leaked(s, id) + 1])
    case Receive(_, m, slot) => Move(s, Message(m), Local(t, slot))
    // configuration
    case NewInfo(_, name, id) => s.(infos := s.infos[id := Info(1, false)],
                                    holders := s.holders[Entry(s.configured + 1, name) := id])
    case StartSwap(_) => Goto(s, t, Swapping).(lock := Some(t))
    case DropConfig(_, name) => Goto(Move(s, Entry(s.configured, name), Busy(t)), t, Releasing(ToSwap))
    case Install(_) => Goto(s, t, Idle).(configured := s.configured + 1, lock := None)
  }

  /** release_stream_info's atomic decrement: only the last reference goes on to free. */
  function Decremented(s: State, t: Thread, resume: Resume): (s': State)
    requires Busy(t) in s.holders
  {
    var id := s.holders[Busy(t)];
    var s' := s.(infos := s.infos[id := Info(CountOf(s, id) - 1, Freed(s, id))],
                 holders := s.holders - {Busy(t)},
                 fault := s.fault || Freed(s, id));
    Goto(s', t, if CountOf(s, id) > 1 then Resumed(resume) else Freeing(id, resume))
  }

  function Leaked(s: State, id: Id): (n: nat) { if id in s.leaks then s.leaks[id] else 0 }

  /** The registers and tables a step reads exist. */
  ghost predicate Wf(s: State) {
    && (forall t :: t in s.pcs ==>
          var pc := s.pcs[t];
          pc.Counted? || pc.Uncached? || pc.Inserted? || pc.Got? || pc.Releasing? || pc.Sending? ==>
            Busy(t) in s.holders)
    && (forall t, name :: t in s.pcs && s.pcs[t].Idle? && (t, name) in s.caches ==> Cached(t, name) in s.holders)
    && (forall p :: p in s.owners ==> Processor(p) in s.holders)
  }
}
