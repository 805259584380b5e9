/**
 * The methods of parsers, adders, controller and updaters carry out the steps
 * of the pipeline: in every reachable state what they require of their tables
 * and tasks holds, and what they leave is a state the step allows.
 */
module Importer {
  import opened Increments
  import opened ProcessorModel
  import opened Pipeline
  import opened PipelineProofs
  import opened StatsUpdater
  import Adder
  import Processor

  /** An update message: the task type, the database and one of a processor's tables. */
  datatype Job =
    | Totals(db: string, increments: map<string, Incs>)
    | Minutes(db: string, increments: map<string, Incs>)
    | Quants(db: string, counts: map<string, seq<int>>)
    | Histograms(db: string, counts: map<string, seq<int>>)
    | Agents(db: string, agents: map<string, Agent>)

  function TableOf(job: Job): (t: Table) {
    match job
    case Totals(db, m) => TotalsTask(db, m)
    case Minutes(db, m) => MinutesTask(db, m)
    case Quants(db, m) => QuantsTask(db, m)
    case Histograms(db, m) => HistogramsTask(db, m)
    case Agents(db, m) => AgentsTask(db, m)
  }

  /** Every key is one that the decoder of the task is for. */
  ghost predicate Decodable(job: Job) {
    match job
    case Totals(_, _) => true
    case Minutes(_, m) => MinuteKeys(m)
    case Quants(_, m) => QuantKeys(m)
    case Histograms(_, m) => HistogramKeys(m)
    case Agents(_, m) => Adder.Reasons(m)
  }

  ghost predicate Writable(t: Table) {
    exists job :: TableOf(job) == t && Decodable(job)
  }

  // ----- every reachable state is ready for the methods

  ghost predicate AllShaped(r: Resources, ts: seq<Traced>) {
    forall i :: 0 <= i < |ts| ==> Adder.ShapedTable(ts[i].table, |r.names|)
  }

  ghost predicate AllWritable(ts: seq<Table>) {
    forall i :: 0 <= i < |ts| ==> Writable(ts[i])
  }

  ghost predicate Ready(r: Resources, s: State) {
    && AllShaped(r, s.parsers) && AllShaped(r, Held(s.phase)) && AllShaped(r, s.collected)
    && AllWritable(s.queue)
  }

  lemma HonestIsShaped(r: Resources, ts: seq<Traced>)
    requires Honest(r, ts)
    ensures AllShaped(r, ts)
  {
    forall i | 0 <= i < |ts| ensures Adder.ShapedTable(ts[i].table, |r.names|) {
      Adder.FoldShaped(r, ts[i].sources);
    }
  }

  function Jobs(db: string, p: Proc): (jobs: seq<Job>) {
    [Totals(db, p.totals), Minutes(db, p.minutes), Quants(db, p.quants), Histograms(db, p.histograms),
     Agents(db, p.agents)]
  }

  lemma JobsAreTasks(db: string, p: Proc)
    ensures |Tasks(db, p)| == 5
    ensures forall i :: 0 <= i < 5 ==> TableOf(Jobs(db, p)[i]) == Tasks(db, p)[i]
  {
  }

  lemma TasksWritable(db: string, p: Proc)
    requires Keyed(p)
    ensures AllWritable(Tasks(db, p))
  {
    JobsAreTasks(db, p);
    forall i | 0 <= i < 5 ensures Writable(Tasks(db, p)[i]) {
      assert Decodable(Jobs(db, p)[i]);
    }
  }

  lemma {:induction false} AllTasksWritable(t: Table, names: seq<string>)
    requires forall i :: 0 <= i < |names| ==> names[i] in t
    requires forall db :: db in t ==> Keyed(t[db])
    ensures AllWritable(AllTasks(t, names))
  {
    if names != [] {
      var n := |names| - 1;
      AllTasksWritable(t, names[..n]);
      TasksWritable(names[n], t[names[n]]);
    }
  }

  lemma ForwardWritable(r: Resources, s: State, s': State, names: seq<string>)
    requires Inv(r, s) && AllWritable(s.queue) && FinishTick(s, s', names)
    ensures AllWritable(s'.queue)
  {
    if s.ticks % DATABASE_UPDATE_INTERVAL == 0 {
      var t := s.phase.list[0];
      assert Held(s.phase)[0] == t;
      FoldKeyed(r, t.sources);
      AllTasksWritable(t.table, names);
    }
  }

  lemma WithoutWritable(ts: seq<Table>, j: nat)
    requires AllWritable(ts) && j < |ts|
    ensures AllWritable(Without(ts, j))
  {
    var rest := Without(ts, j);
    assert forall i :: 0 <= i < |rest| ==> rest[i] == ts[if i < j then i else i + 1];
  }

  lemma StepKeepsWritable(r: Resources, s: State, s': State)
    requires Inv(r, s) && AllWritable(s.queue) && Next(r, s, s')
    ensures AllWritable(s'.queue)
  {
    if names :| FinishTick(s, s', names) {
      ForwardWritable(r, s, s', names);
    } else if j :| Update(s, s', j) {
      WithoutWritable(s.queue, j);
    } else {
      assert s'.queue == s.queue;
    }
  }

  lemma {:induction false} RunIsWritable(r: Resources, n: nat, ss: seq<State>)
    requires Run(r, n, ss)
    ensures AllWritable(ss[|ss| - 1].queue)
    decreases |ss|
  {
    var m := |ss| - 1;
    if m > 0 {
      RunIsWritable(r, n, ss[..m]);
      RunKeepsInv(r, n, ss[..m]);
      StepKeepsWritable(r, ss[m - 1], ss[m]);
    }
  }

  /** In every state of every run all tables have the shape the adders rely on, and all tasks can be decoded. */
  lemma RunIsReady(r: Resources, n: nat, ss: seq<State>)
    requires Run(r, n, ss)
    ensures Ready(r, ss[|ss| - 1])
  {
    var s := ss[|ss| - 1];
    RunKeepsInv(r, n, ss);
    HonestIsShaped(r, s.parsers);
    HonestIsShaped(r, Held(s.phase));
    HonestIsShaped(r, s.collected);
    RunIsWritable(r, n, ss);
  }

  // ----- the methods take the steps

  /** A parser's processor takes a message. */
  method ParseMessage(r: Resources, s: State, i: nat, input: Input) returns (s': State)
    requires Ready(r, s) && i < |s.parsers| && ValidResources(r)
    ensures Parse(r, s, s', i, input)
  {
    var t := s.parsers[i].table;
    assert Adder.ShapedTable(t, |r.names|);
    var processor;
    if input.db in t {
      processor := new Processor.State.Of(r, t[input.db]);
    } else {
      processor := new Processor.State(r);
    }
    processor.Process(input.msg);
    var p := Proc(processor.requestCount, processor.modules, processor.totals, processor.minutes, processor.quants,
                  processor.histograms, processor.agents);
    s' := s.(parsers := s.parsers[i := Traced(t[input.db := p], s.parsers[i].sources + [input])],
             parsed := s.parsed + [input]);
  }

  /** An adder handles a request of the controller. */
  method HandleAddition(r: Resources, s: State) returns (s': State)
    requires Ready(r, s) && s.phase.Merging? && s.phase.toSend > 0 && |s.phase.list| >= 2
    ensures SendPair(s, s')
  {
    var p := s.phase;
    var a, b := p.list[0], p.list[1];
    assert Held(p)[0] == a && Held(p)[1] == b;
    var merged := Adder.MergeProcessors(b.table, a.table, |r.names|);
    s' := s.(phase := p.(list := p.list[2..], toSend := p.toSend - 1,
                         pending := p.pending + [Traced(merged, b.sources + a.sources)]));
  }

  lemma ForwardOne(t: Table, names: seq<string>, jobs: seq<Job>, db: string)
    requires (forall i :: 0 <= i < |names| ==> names[i] in t) && db in t
    requires TablesOf(jobs) == AllTasks(t, names)
    ensures TablesOf(jobs + Jobs(db, t[db])) == AllTasks(t, names + [db])
  {
    TablesOfConcat(jobs, Jobs(db, t[db]));
    JobsAreTasks(db, t[db]);
    assert TablesOf(Jobs(db, t[db])) == Tasks(db, t[db]);
    assert (names + [db])[..|names|] == names;
  }

  /** The databases visited so far, and the ones to go. */
  ghost predicate Visited(t: Table, names: seq<string>, rest: Table) {
    && (forall i :: 0 <= i < |names| ==> names[i] in t)
    && (forall db :: db in rest <==> db in t && db !in names)
    && (forall db :: db in rest ==> rest[db] == t[db])
    && (forall i, j :: 0 <= i < j < |names| ==> names[i] != names[j])
  }

  lemma VisitOne(t: Table, names: seq<string>, rest: Table, db: string)
    requires Visited(t, names, rest) && db in rest
    ensures Visited(t, names + [db], rest - {db})
  {
  }

  ghost predicate Sent(t: Table, names: seq<string>, rest: Table, jobs: seq<Job>) {
    Visited(t, names, rest) && TablesOf(jobs) == AllTasks(t, names)
  }

  lemma SendOne(t: Table, names: seq<string>, rest: Table, jobs: seq<Job>, db: string)
    requires Sent(t, names, rest, jobs) && db in rest
    ensures Sent(t, names + [db], rest - {db}, jobs + Jobs(db, rest[db])) && |rest - {db}| < |rest|
  {
    VisitOne(t, names, rest, db);
    ForwardOne(t, names, jobs, db);
    assert rest == (rest - {db})[db := rest[db]];
  }

  lemma AllVisited(t: Table, names: seq<string>, rest: Table)
    requires Visited(t, names, rest) && rest == map[]
    ensures Enumerates(names, t)
  {
    assert forall db :: db in t ==> db !in rest;
  }

  /** The loop over the databases in forward_updates. */
  method ForwardUpdates(t: Table) returns (jobs: seq<Job>, names: seq<string>)
    ensures Enumerates(names, t)
    ensures TablesOf(jobs) == AllTasks(t, names)
  {
    jobs, names := [], [];
    var rest := t;
    while rest != map[]
      invariant Sent(t, names, rest, jobs)
      decreases |rest|
    {
      var db :| db in rest;
      SendOne(t, names, rest, jobs, db);
      jobs, names, rest := jobs + Jobs(db, rest[db]), names + [db], rest - {db};
    }
    AllVisited(t, names, rest);
  }

  function TablesOf(jobs: seq<Job>): (ts: seq<Table>)
    ensures |ts| == |jobs| && forall i :: 0 <= i < |jobs| ==> ts[i] == TableOf(jobs[i])
  {
    seq(|jobs|, i requires 0 <= i < |jobs| => TableOf(jobs[i]))
  }

  lemma TablesOfConcat(a: seq<Job>, b: seq<Job>)
    ensures TablesOf(a + b) == TablesOf(a) + TablesOf(b)
  {
  }

  /** Every fifth tick ends with forwarding the merged table. */
  method FinishFifthTick(s: State) returns (s': State, names: seq<string>)
    requires RoundsDone(s) && s.phase.last && s.ticks % DATABASE_UPDATE_INTERVAL == 0
    ensures FinishTick(s, s', names)
  {
    var t := s.phase.list[0];
    var jobs;
    jobs, names := ForwardUpdates(t.table);
    s' := s.(phase := Idle, queue := s.queue + TablesOf(jobs), forwarded := s.forwarded + [t]);
  }

  /** The switch over the task type in the updater's loop. */
  method Write(db0: Database, job: Job) returns (db: Database)
    requires Decodable(job)
    ensures Wrote(db0, db, TableOf(job))
  {
    match job
    case Totals(name, m) => db := UpdateTotals(db0, name, m);
    case Minutes(name, m) => db := UpdateMinutes(db0, name, m);
    case Quants(name, m) => db := UpdateQuants(db0, name, m);
    case Histograms(name, m) => db := UpdateHistograms(db0, name, m);
    case Agents(name, m) => db := UpdateAgents(db0, name, m);
  }

  /** An updater takes a task from the queue; by RunIsReady there is a decodable job for each. */
  method WriteTask(s: State, j: nat, job: Job) returns (s': State)
    requires j < |s.queue| && s.queue[j] == TableOf(job) && Decodable(job)
    ensures Update(s, s', j)
  {
    var db := Write(s.db, job);
    s' := s.(queue := Without(s.queue, j), db := db);
  }
}
