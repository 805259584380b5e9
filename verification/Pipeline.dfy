/**
 * The importer's aggregation pipeline as a state machine of small steps:
 * parsers, the controller's tick, adders replying in any order, the queue of
 * update tasks and the updaters, interleaved in every possible way.
 */
module Pipeline {
  import opened Options
  import opened Merging
  import opened ProcessorModel
  import opened Cells
  import opened Writes

  const DATABASE_UPDATE_INTERVAL: nat := 5

  /** A table with the messages that went into it; no step reads the messages. */
  datatype Traced = Traced(table: Table, sources: seq<Input>)

  const NOTHING := Traced(map[], [])

  datatype Phase =
    | Idle
    | Collecting(got: seq<Traced>)
    | Merging(last: bool, list: seq<Traced>, toSend: nat, pending: seq<Traced>)

  type Database = map<Doc, map<Field, real>>

  datatype State = State(
    parsers: seq<Traced>,
    phase: Phase,
    collected: seq<Traced>,
    ticks: nat,
    queue: seq<Table>,
    db: Database,
    parsed: seq<Input>,
    forwarded: seq<Traced>)

  function DbCell(db: Database, c: Cell): (v: Option<real>) {
    if c.doc in db then At(db[c.doc], c.field) else None
  }

  /** The database `db` is `db0` with the cells of a table written to it. */
  ghost predicate Wrote(db0: Database, db: Database, t: Table) {
    forall c: Cell :: DbCell(db, c) == Join(OpOf(c.field), DbCell(db0, c), TableCell(t, c))
  }

  /** handle_addition: the first table is drained into the second. */
  function MergeTraced(p1: Traced, p2: Traced): (t: Traced) {
    Traced(MergeTables(p2.table, p1.table), p2.sources + p1.sources)
  }

  function Without<T>(ts: seq<T>, j: nat): (rest: seq<T>)
    requires j < |ts|
  {
    ts[..j] + ts[j+1..]
  }

  /** The five tasks forward_updates sends for one database. */
  function Tasks(db: string, p: Proc): (ts: seq<Table>) {
    [map[db := EMPTY_PROC.(totals := p.totals)],
     map[db := EMPTY_PROC.(minutes := p.minutes)],
     map[db := EMPTY_PROC.(quants := p.quants)],
     map[db := EMPTY_PROC.(histograms := p.histograms)],
     map[db := EMPTY_PROC.(agents := p.agents)]]
  }

  function AllTasks(t: Table, names: seq<string>): (ts: seq<Table>)
    requires forall i :: 0 <= i < |names| ==> names[i] in t
  {
    if names == [] then [] else AllTasks(t, names[..|names|-1]) + Tasks(names[|names|-1], t[names[|names|-1]])
  }

  /** The keys of a table in some order. */
  ghost predicate Enumerates(names: seq<string>, t: Table) {
    && (forall i :: 0 <= i < |names| ==> names[i] in t)
    && (forall db :: db in t ==> db in names)
    && (forall i, j :: 0 <= i < j < |names| ==> names[i] != names[j])
  }

  ghost predicate Init(s: State, n: nat) {
    s == State(seq(n, _ => NOTHING), Idle, [], 0, [], map[], [], [])
  }

  // ----- steps

  /** A parser processes a message. */
  ghost predicate Parse(r: Resources, s: State, s': State, i: nat, input: Input) {
    && i < |s.parsers|
    && s' == s.(parsers := s.parsers[i := Traced(Receive(r, s.parsers[i].table, input),
                                                 s.parsers[i].sources + [input])],
                parsed := s.parsed + [input])
  }

  ghost predicate StartTick(s: State, s': State) {
    s.phase.Idle? && s' == s.(phase := Collecting([]), ticks := s.ticks + 1)
  }

  /** The next parser answers a tick with its table and starts over with an empty one. */
  ghost predicate Collect(s: State, s': State) {
    && s.phase.Collecting? && |s.phase.got| < |s.parsers|
    && var i := |s.phase.got|;
       s' == s.(phase := Collecting(s.phase.got + [s.parsers[i]]), parsers := s.parsers[i := NOTHING])
  }

  ghost predicate StartMerge(s: State, s': State) {
    && s.phase.Collecting? && |s.phase.got| == |s.parsers|
    && s' == s.(phase := Merging(false, s.phase.got, |s.phase.got| / 2, []))
  }

  ghost predicate SendPair(s: State, s': State) {
    && s.phase.Merging? && s.phase.toSend > 0 && |s.phase.list| >= 2
    && var p := s.phase;
       s' == s.(phase := p.(list := p.list[2..], toSend := p.toSend - 1,
                            pending := p.pending + [MergeTraced(p.list[0], p.list[1])]))
  }

  /** Replies come in any order once all requests of a round are out. */
  ghost predicate Reply(s: State, s': State, j: nat) {
    && s.phase.Merging? && s.phase.toSend == 0 && j < |s.phase.pending|
    && var p := s.phase;
       s' == s.(phase := p.(list := p.list + [p.pending[j]], pending := Without(p.pending, j)))
  }

  ghost predicate NextRound(s: State, s': State) {
    && s.phase.Merging? && s.phase.toSend == 0 && s.phase.pending == [] && |s.phase.list| > 1
    && s' == s.(phase := s.phase.(toSend := |s.phase.list| / 2))
  }

  ghost predicate RoundsDone(s: State) {
    s.phase.Merging? && s.phase.toSend == 0 && s.phase.pending == [] && |s.phase.list| == 1
  }

  /** The tick's table joins the collected one. */
  ghost predicate Accumulate(s: State, s': State) {
    && RoundsDone(s) && !s.phase.last
    && var all := s.collected + s.phase.list;
       s' == s.(phase := Merging(true, all, |all| / 2, []), collected := [])
  }

  /** The tick ends; every fifth one forwards what was collected. */
  ghost predicate FinishTick(s: State, s': State, names: seq<string>) {
    && RoundsDone(s) && s.phase.last
    && if s.ticks % DATABASE_UPDATE_INTERVAL == 0 then
         var t := s.phase.list[0];
         && Enumerates(names, t.table)
         && s' == s.(phase := Idle, queue := s.queue + AllTasks(t.table, names), forwarded := s.forwarded + [t])
       else
         s' == s.(phase := Idle, collected := s.phase.list)
  }

  /** An updater writes any queued task. */
  ghost predicate Update(s: State, s': State, j: nat) {
    && j < |s.queue|
    && s' == s.(queue := Without(s.queue, j), db := s'.db)
    && Wrote(s.db, s'.db, s.queue[j])
  }

  ghost predicate Next(r: Resources, s: State, s': State) {
    || (exists i, input :: Parse(r, s, s', i, input))
    || StartTick(s, s') || Collect(s, s') || StartMerge(s, s')
    || SendPair(s, s') || (exists j :: Reply(s, s', j)) || NextRound(s, s')
    || Accumulate(s, s') || (exists names :: FinishTick(s, s', names))
    || (exists j :: Update(s, s', j))
  }

  // ----- the invariant

  /** How often a message went into some tables. */
  function Times(ts: seq<Traced>, x: Input): (n: nat) {
    if ts == [] then 0 else Times(ts[..|ts|-1], x) + multiset(ts[|ts|-1].sources)[x]
  }

  lemma {:induction false} TimesConcat(a: seq<Traced>, b: seq<Traced>, x: Input)
    ensures Times(a + b, x) == Times(a, x) + Times(b, x)
    decreases |b|
  {
    if b == [] {
      assert a + b == a;
    } else {
      assert (a + b)[..|a + b| - 1] == a + b[..|b|-1];
      TimesConcat(a, b[..|b|-1], x);
    }
  }

  lemma TimesOne(t: Traced, x: Input)
    ensures Times([t], x) == multiset(t.sources)[x]
  {
    assert [t][..0] == [];
  }

  lemma TimesWithout(ts: seq<Traced>, j: nat, x: Input)
    requires j < |ts|
    ensures Times(ts, x) == Times(Without(ts, j), x) + multiset(ts[j].sources)[x]
  {
    assert ts == ts[..j] + [ts[j]] + ts[j+1..];
    TimesConcat(ts[..j] + [ts[j]], ts[j+1..], x);
    TimesConcat(ts[..j], [ts[j]], x);
    TimesConcat(ts[..j], ts[j+1..], x);
    TimesOne(ts[j], x);
  }

  lemma TimesUpdate(ts: seq<Traced>, j: nat, t: Traced, x: Input)
    requires j < |ts|
    ensures Times(ts[j := t], x) + multiset(ts[j].sources)[x] == Times(ts, x) + multiset(t.sources)[x]
  {
    TimesWithout(ts, j, x);
    TimesWithout(ts[j := t], j, x);
    assert Without(ts[j := t], j) == Without(ts, j);
  }

  ghost predicate Honest(r: Resources, ts: seq<Traced>) {
    forall i :: 0 <= i < |ts| ==> ts[i].table == Fold(r, ts[i].sources)
  }

  /** What the controller holds in the current tick. */
  function Held(p: Phase): (ts: seq<Traced>) {
    match p
    case Idle => []
    case Collecting(got) => got
    case Merging(_, list, _, pending) => list + pending
  }

  ghost predicate AllHonest(r: Resources, s: State) {
    Honest(r, s.parsers) && Honest(r, Held(s.phase)) && Honest(r, s.collected) && Honest(r, s.forwarded)
  }

  /** No occurrence of a message is lost, and none is counted twice. */
  ghost predicate ConservedAt(s: State, x: Input) {
    multiset(s.parsed)[x] ==
      Times(s.parsers, x) + Times(Held(s.phase), x) + Times(s.collected, x) + Times(s.forwarded, x)
  }

  function Tables(ts: seq<Traced>): (tables: seq<Table>)
    ensures |tables| == |ts| && forall i :: 0 <= i < |ts| ==> tables[i] == ts[i].table
  {
    seq(|ts|, i requires 0 <= i < |ts| => ts[i].table)
  }

  /** What is in the database together with what is queued is what was forwarded. */
  ghost predicate Accounted(s: State) {
    forall c: Cell :: Join(OpOf(c.field), DbCell(s.db, c), WrittenBy(s.queue, c)) == WrittenBy(Tables(s.forwarded), c)
  }

  /** Between ticks at most one table waits to be forwarded; while it is merged with the next one, none. */
  ghost predicate Few(s: State) {
    |s.collected| <= if s.phase.Merging? && s.phase.last then 0 else 1
  }

  ghost predicate Inv(r: Resources, s: State) {
    AllHonest(r, s) && (forall x :: ConservedAt(s, x)) && Accounted(s) && Few(s)
  }
}
