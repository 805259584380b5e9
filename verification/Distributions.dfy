/** What quants, heatmaps and user agents mean in a settled database, in the words of `Messages`. */
module Distributions {
  import opened Options
  import opened Merging
  import opened KeyCodec
  import opened Increments
  import opened ProcessorModel
  import opened Cells
  import opened Singles
  import opened Pipeline
  import opened PipelineProofs
  import opened Messages
  import opened Readings
  import opened Meaning

  // ----- quants

  function CountAt(m: map<string, seq<int>>, key: string, i: nat): (n: int) {
    if key in m && i < |m[key]| then m[key][i] else 0
  }

  function EntriesAt(es: seq<(string, seq<int>)>, key: string, i: nat): (n: int) {
    if es == [] then 0
    else (if es[0].0 == key && i < |es[0].1| then es[0].1[i] else 0) + EntriesAt(es[1..], key, i)
  }

  lemma {:induction false} AddAllCounts(m: map<string, seq<int>>, es: seq<(string, seq<int>)>, key: string, i: nat)
    ensures CountAt(AddAll(AddCounts, m, es), key, i) == CountAt(m, key, i) + EntriesAt(es, key, i)
    decreases |es|
  {
    if es != [] {
      AddAllCounts(AddAt(AddCounts, m, es[0].0, es[0].1), es[1..], key, i);
    }
  }

  lemma EntriesTwo(a: (string, seq<int>), b: (string, seq<int>), es: seq<(string, seq<int>)>, key: string, i: nat)
    ensures EntriesAt([a, b] + es, key, i) == EntriesAt([a], key, i) + EntriesAt([b], key, i) + EntriesAt(es, key, i)
  {
    assert ([a, b] + es)[1..] == [b] + es && ([b] + es)[1..] == es;
    assert [a][1..] == [] && [b][1..] == [];
  }

  /** A key of the quants of resource `j` for the value `v`. */
  ghost predicate QuantMatches(r: Resources, page: string, v: real, j: nat, kind: char, quant: nat, ns: string) {
    (ns == page || ns == ALL_PAGES) && InQuant(r, j, v, kind, quant)
  }

  lemma OneQuant(c: char, q: nat, page: string, j: nat, size: nat, kind: char, quant: nat, ns: string, i: nat)
    requires j < size && page != ALL_PAGES
    ensures EntriesAt([(QuantKey(c, q, page), Unit(j, size))], QuantKey(kind, quant, ns), i) +
            EntriesAt([(QuantKey(c, q, ALL_PAGES), Unit(j, size))], QuantKey(kind, quant, ns), i) ==
            if i == j && c == kind && q == quant && (ns == page || ns == ALL_PAGES) then 1 else 0
  {
    if QuantKey(c, q, page) == QuantKey(kind, quant, ns) { QuantKeyInjective(c, q, page, kind, quant, ns); }
    if QuantKey(c, q, ALL_PAGES) == QuantKey(kind, quant, ns) { QuantKeyInjective(c, q, ALL_PAGES, kind, quant, ns); }
  }

  /** The quants of a request hold one entry for each positive resource with quants, under its page and "all_pages". */
  lemma {:induction false} EachQuantCounts(r: Resources, page: string, metrics: seq<Metric>, k: nat, kind: char,
                                           quant: nat, ns: string, i: nat)
    requires k <= |metrics| && page != ALL_PAGES
    ensures EntriesAt(EachQuant(r, page, metrics, k), QuantKey(kind, quant, ns), i) ==
            if k <= i < |metrics| && QuantMatches(r, page, metrics[i].val, i, kind, quant, ns) then 1 else 0
    decreases |metrics| - k
  {
    if k < |metrics| {
      EachQuantCounts(r, page, metrics, k + 1, kind, quant, ns, i);
      var v := metrics[k].val;
      QuantIsRead(r, k, v, kind, quant);
      if v > 0.0 && QuantKind(r, k).Some? {
        var (c, scale) := QuantKind(r, k).value;
        var q := Quant(v, scale);
        OneQuant(c, q, page, k, |metrics|, kind, quant, ns, i);
        EntriesTwo((QuantKey(c, q, page), Unit(k, |metrics|)), (QuantKey(c, q, ALL_PAGES), Unit(k, |metrics|)),
                   EachQuant(r, page, metrics, k + 1), QuantKey(kind, quant, ns), i);
      }
    }
  }

  /** A request counts among the quants of its page and of "all_pages". */
  ghost predicate QuantCounted(r: Resources, x: Input, doc: Doc, i: nat)
    requires doc.QuantsDoc?
  {
    && x.db == doc.db && Request(x.msg) && (doc.page == "all_pages" || PageIs(x.msg, doc.page))
    && i < |r.names| && Value(r, x.msg, r.names[i]).Some?
    && InQuant(r, i, Value(r, x.msg, r.names[i]).value, doc.kind, doc.quant)
  }

  /** The time of the histogram that a message counts in, if it has one. */
  lemma TimedIsRead(r: Resources, m: Message, resource: string, t: real)
    ensures HistogramTime(m, resource, t) <==>
            ShareOf(r, m).Some? && ShareOf(r, m).value.timed == Some((resource, t))
    ensures Request(m) <==> ShareOf(r, m).Some? && ShareOf(r, m).value.timed.Some?
  {
    ShareIsRead(r, m);
  }

  lemma QuantsOfRequest(r: Resources, m: Message)
    requires ShareOf(r, m).Some? && Request(m)
    ensures Single(r, m).quants ==
            AddAll(AddCounts, map[], EachQuant(r, PageFor(m), ShareOf(r, m).value.incs.metrics, 0))
  {
    RequestSpaces(r, m);
    TimedIsRead(r, m, "", 0.0);
  }

  lemma QuantsOfShare(r: Resources, m: Message, kind: char, quant: nat, ns: string, i: nat)
    requires ShareOf(r, m).Some? && Request(m)
    ensures var metrics := ShareOf(r, m).value.incs.metrics;
            CountAt(Single(r, m).quants, QuantKey(kind, quant, ns), i) ==
            if i < |metrics| && QuantMatches(r, PageFor(m), metrics[i].val, i, kind, quant, ns) then 1 else 0
  {
    var page, metrics := PageFor(m), ShareOf(r, m).value.incs.metrics;
    QuantsOfRequest(r, m);
    NamespacesDiffer(page);
    EachQuantCounts(r, page, metrics, 0, kind, quant, ns, i);
    AddAllCounts(map[], EachQuant(r, page, metrics, 0), QuantKey(kind, quant, ns), i);
  }

  lemma NoQuants(r: Resources, m: Message)
    requires !Request(m)
    ensures Single(r, m).quants == map[]
  {
    ShareIsRead(r, m);
  }

  /** A single message raises the quants that it counts for by one. */
  lemma SingleQuant(r: Resources, x: Input, doc: Doc, i: nat)
    requires doc.QuantsDoc?
    ensures TableCell(Fold(r, [x]), Cell(doc, QuantOf(i))) == if QuantCounted(r, x, doc, i) then Some(1.0) else None
  {
    SingleIsFold(r, x);
    if Request(x.msg) {
      ShareIsRead(r, x.msg);
      QuantsOfShare(r, x.msg, doc.kind, doc.quant, doc.page, i);
      PageIsRead(x.msg, doc.page);
      ShareMetric(r, x.msg, i);
    } else {
      NoQuants(r, x.msg);
    }
  }

  ghost function QuantCountedIn(r: Resources, doc: Doc, i: nat): (p: Input -> bool)
    requires doc.QuantsDoc?
  {
    (x: Input) => QuantCounted(r, x, doc, i)
  }

  /** A quant is the number of requests whose resource has a positive value in its bucket. */
  lemma QuantsCount(r: Resources, n: nat, ss: seq<State>, doc: Doc, i: nat)
    requires Run(r, n, ss) && Settled(ss[|ss| - 1]) && doc.QuantsDoc?
    ensures var z := ss[|ss| - 1];
            DbCell(z.db, Cell(doc, QuantOf(i))) ==
            Tally(z.parsed, QuantCountedIn(r, doc, i), QuantCountedIn(r, doc, i))
  {
    var p := QuantCountedIn(r, doc, i);
    forall x ensures TableCell(Fold(r, [x]), Cell(doc, QuantOf(i))) == OneOrZero(p(x), p(x)) {
      SingleQuant(r, x, doc, i);
    }
    SettledCount(r, n, ss, Cell(doc, QuantOf(i)), p, p);
  }

  // ----- heatmaps

  /** A request counts in the bucket of its own time. */
  ghost predicate HeatCounted(x: Input, doc: Doc, resource: string, k: nat)
    requires doc.HeatmapDoc?
  {
    Concerns(x, doc) && exists t :: HistogramTime(x.msg, resource, t) && InBucket(t, k, 1)
  }

  function HeatOf(s: Share, minute: nat, resource: string, ns: string, k: nat): (v: Option<real>) {
    if s.timed.Some? && resource == s.timed.value.0 && minute == s.minute && ns in s.spaces
       && k == BucketIndex(s.timed.value.1)
    then Some(1.0) else None
  }

  lemma UnitHeat(k: nat, i: nat)
    requires k < HISTOGRAM_SIZE
    ensures CountsOption(Some(Unit(k, HISTOGRAM_SIZE)), i) == if i == k then Some(1.0) else None
  {
  }

  lemma SingleHeatCount(r: Resources, m: Message, minute: nat, resource: string, ns: string, k: nat)
    requires HyphenFree(resource)
    ensures CountsOption(At(Single(r, m).histograms, HistogramKey(minute, resource, ns)), k) ==
            match ShareOf(r, m) case None => None case Some(s) => HeatOf(s, minute, resource, ns, k)
  {
    SingleHistograms(r, m, minute, resource, ns);
    match ShareOf(r, m)
    case None =>
    case Some(s) => if s.timed.Some? { UnitHeat(BucketIndex(s.timed.value.1), k); }
  }

  lemma HeatCell(t: Table, doc: Doc, resource: string, k: nat)
    requires doc.HeatmapDoc? && HyphenFree(resource)
    ensures TableCell(t, Cell(doc, Bucket(resource, k))) ==
            if doc.db !in t then None
            else CountsOption(At(t[doc.db].histograms, HistogramKey(doc.minute, resource, doc.page)), k)
  {
  }

  lemma SingleHeatCell(r: Resources, x: Input, doc: Doc, resource: string, k: nat)
    requires doc.HeatmapDoc? && HyphenFree(resource)
    ensures TableCell(Fold(r, [x]), Cell(doc, Bucket(resource, k))) ==
            match ShareOf(r, x.msg)
            case None => None
            case Some(s) => if x.db == doc.db then HeatOf(s, doc.minute, resource, doc.page, k) else None
  {
    SingleIsFold(r, x);
    HeatCell(Fold(r, [x]), doc, resource, k);
    SingleHeatCount(r, x.msg, doc.minute, resource, doc.page, k);
  }

  lemma HeatTimeIsRead(r: Resources, m: Message, resource: string, k: nat)
    ensures (exists t :: HistogramTime(m, resource, t) && InBucket(t, k, 1)) <==>
            match ShareOf(r, m)
            case None => false
            case Some(s) => s.timed.Some? && s.timed.value.0 == resource && k == BucketIndex(s.timed.value.1)
  {
    forall t ensures HistogramTime(m, resource, t) <==>
        ShareOf(r, m).Some? && ShareOf(r, m).value.timed == Some((resource, t)) {
      TimedIsRead(r, m, resource, t);
    }
    if ShareOf(r, m).Some? && ShareOf(r, m).value.timed.Some? {
      var t := ShareOf(r, m).value.timed.value.1;
      BucketIsRead(t, k, 1);
      assert t / 1 as real == t;
    }
  }

  lemma HeatIsRead(r: Resources, x: Input, doc: Doc, resource: string, k: nat)
    requires doc.HeatmapDoc? && ShareOf(r, x.msg).Some?
    ensures HeatCounted(x, doc, resource, k) <==>
            x.db == doc.db && HeatOf(ShareOf(r, x.msg).value, doc.minute, resource, doc.page, k).Some?
  {
    ShareIsRead(r, x.msg);
    SpacesAreRead(r, x.msg, doc.page);
    HeatTimeIsRead(r, x.msg, resource, k);
  }

  lemma HeatNeedsShare(r: Resources, x: Input, doc: Doc, resource: string, k: nat)
    requires doc.HeatmapDoc? && HeatCounted(x, doc, resource, k)
    ensures ShareOf(r, x.msg).Some? && HyphenFree(resource)
  {
    HeatTimeIsRead(r, x.msg, resource, k);
  }

  lemma SingleHeat(r: Resources, x: Input, doc: Doc, resource: string, k: nat)
    requires doc.HeatmapDoc?
    ensures TableCell(Fold(r, [x]), Cell(doc, Bucket(resource, k))) ==
            if HeatCounted(x, doc, resource, k) then Some(1.0) else None
  {
    if HeatCounted(x, doc, resource, k) { HeatNeedsShare(r, x, doc, resource, k); }
    if HyphenFree(resource) {
      SingleHeatCell(r, x, doc, resource, k);
      if ShareOf(r, x.msg).Some? { HeatIsRead(r, x, doc, resource, k); }
    }
  }

  ghost function HeatCountedIn(doc: Doc, resource: string, k: nat): (p: Input -> bool)
    requires doc.HeatmapDoc?
  {
    (x: Input) => HeatCounted(x, doc, resource, k)
  }

  /** A heatmap bucket is the number of requests of its minute and namespace whose time lies between its limits. */
  lemma HeatmapsCount(r: Resources, n: nat, ss: seq<State>, doc: Doc, resource: string, k: nat)
    requires Run(r, n, ss) && Settled(ss[|ss| - 1]) && doc.HeatmapDoc?
    ensures var z := ss[|ss| - 1];
            DbCell(z.db, Cell(doc, Bucket(resource, k))) ==
            Tally(z.parsed, HeatCountedIn(doc, resource, k), HeatCountedIn(doc, resource, k))
  {
    var p := HeatCountedIn(doc, resource, k);
    forall x ensures TableCell(Fold(r, [x]), Cell(doc, Bucket(resource, k))) == OneOrZero(p(x), p(x)) {
      SingleHeat(r, x, doc, resource, k);
    }
    SettledCount(r, n, ss, Cell(doc, Bucket(resource, k)), p, p);
  }

  // ----- user agents

  predicate IsAgentField(f: Field) { f.AgentBackend? || f.AgentFrontend? || f.AgentDropped? || f.AgentReason? }

  predicate AgentCounts(m: Message, f: Field)
    requires IsAgentField(f)
  {
    match f
    case AgentBackend => BackendRequest(m)
    case AgentFrontend => FrontendMessage(m)
    case AgentDropped => Dropped(m)
    case AgentReason(i) => DroppedFor(m, i)
  }

  /** The first three counters of an agent are written with each of its messages, a reason only when it applies. */
  predicate AgentSeen(x: Input, doc: Doc, f: Field)
    requires doc.AgentsDoc? && IsAgentField(f)
  {
    x.db == doc.db && SentBy(x.msg, doc.agent) && (f.AgentReason? ==> AgentCounts(x.msg, f))
  }

  predicate AgentCounted(x: Input, doc: Doc, f: Field)
    requires doc.AgentsDoc? && IsAgentField(f)
  {
    x.db == doc.db && SentBy(x.msg, doc.agent) && AgentCounts(x.msg, f)
  }

  lemma AgentsAreRead(m: Message, agent: string)
    ensures SentBy(m, agent) <==> AgentsOf(m) != [] && AgentsOf(m)[0].0 == agent
    ensures |AgentsOf(m)| <= 1
  {
  }

  lemma AgentRecord(m: Message, agent: string, f: Field)
    requires SentBy(m, agent) && IsAgentField(f)
    ensures AgentsOf(m) != []
    ensures AgentCell(AgentsOf(m)[0].1, f) == OneOrZero(f.AgentReason? ==> AgentCounts(m, f), AgentCounts(m, f))
  {
  }

  lemma OneAgent(es: seq<(string, Agent)>, agent: string)
    requires |es| <= 1
    ensures At(AddAll(AddAgent, map[], es), agent) ==
            if es != [] && es[0].0 == agent then Some(es[0].1) else None
  {
    if es != [] {
      assert es[1..] == [];
      assert AddAll(AddAgent, AddAt(AddAgent, map[], es[0].0, es[0].1), []) ==
             AddAt(AddAgent, map[], es[0].0, es[0].1);
    }
  }

  lemma SingleAgents(r: Resources, m: Message, agent: string)
    ensures At(Single(r, m).agents, agent) == if SentBy(m, agent) then Some(AgentsOf(m)[0].1) else None
  {
    AgentsAreRead(m, agent);
    OneAgent(AgentsOf(m), agent);
  }

  lemma SingleAgent(r: Resources, x: Input, doc: Doc, f: Field)
    requires doc.AgentsDoc? && IsAgentField(f)
    ensures TableCell(Fold(r, [x]), Cell(doc, f)) == OneOrZero(AgentSeen(x, doc, f), AgentCounted(x, doc, f))
  {
    SingleIsFold(r, x);
    SingleAgents(r, x.msg, doc.agent);
    if SentBy(x.msg, doc.agent) { AgentRecord(x.msg, doc.agent, f); }
  }

  /** The counters of a user agent are the numbers of its requests, frontend messages and dropped ones, by reason. */
  lemma AgentsCount(r: Resources, n: nat, ss: seq<State>, doc: Doc, f: Field)
    requires Run(r, n, ss) && Settled(ss[|ss| - 1]) && doc.AgentsDoc? && IsAgentField(f)
    ensures var z := ss[|ss| - 1];
            DbCell(z.db, Cell(doc, f)) ==
            Tally(z.parsed, (x: Input) => AgentSeen(x, doc, f), (x: Input) => AgentCounted(x, doc, f))
  {
    var seen := (x: Input) => AgentSeen(x, doc, f);
    var counted := (x: Input) => AgentCounted(x, doc, f);
    forall x ensures TableCell(Fold(r, [x]), Cell(doc, f)) == OneOrZero(seen(x), counted(x)) {
      SingleAgent(r, x, doc, f);
    }
    SettledCount(r, n, ss, Cell(doc, f), seen, counted);
  }

  // ----- modules

  /** A dropped outlier has registered its module all the same. */
  predicate Registers(m: Message) {
    BackendRequest(m) || ScriptError(m) || (FrontendMessage(m) && m.early == AcceptedMsg)
  }

  ghost predicate RegistersModule(x: Input, db: string, ns: string) {
    x.db == db && Registers(x.msg) && exists page :: PageIs(x.msg, page) && ModuleIs(page, ns)
  }

  lemma ModulesAreRead(m: Message, ns: string)
    ensures ns in ModulesOf(m) <==> Registers(m) && exists page :: PageIs(m, page) && ModuleIs(page, ns)
  {
    if !m.Event? {
      var page := PageFor(m);
      forall p ensures PageIs(m, p) <==> p == page { PageIsRead(m, p); }
      ModuleIsRead(page, ns);
    }
  }

  function ModulesIn(t: Table, db: string): (ms: set<string>) { if db in t then t[db].modules else {} }

  function RequestsIn(t: Table, db: string): (n: int) { if db in t then t[db].requests else 0 }

  lemma ReceiveModules(r: Resources, t: Table, x: Input, db: string)
    ensures ModulesIn(Receive(r, t, x), db) == ModulesIn(t, db) + if x.db == db then ModulesOf(x.msg) else {}
    ensures RequestsIn(Receive(r, t, x), db) == RequestsIn(t, db) + if x.db == db then 1 else 0
  {
  }

  ghost predicate Any(ins: seq<Input>, p: Input -> bool) {
    exists j :: 0 <= j < |ins| && p(ins[j])
  }

  lemma AnyLast(ins: seq<Input>, p: Input -> bool)
    requires ins != []
    ensures Any(ins, p) <==> Any(ins[..|ins|-1], p) || p(ins[|ins|-1])
  {
    var before := ins[..|ins|-1];
    if Any(before, p) {
      var j :| 0 <= j < |before| && p(before[j]);
      assert p(ins[j]);
    }
    if Any(ins, p) {
      var j :| 0 <= j < |ins| && p(ins[j]);
      assert j < |before| ==> p(before[j]);
    }
  }

  ghost function Registering(db: string, ns: string): (p: Input -> bool) {
    (x: Input) => RegistersModule(x, db, ns)
  }

  lemma ReceiveRegisters(r: Resources, t: Table, x: Input, db: string, ns: string)
    ensures ns in ModulesIn(Receive(r, t, x), db) <==> ns in ModulesIn(t, db) || Registering(db, ns)(x)
  {
    ReceiveModules(r, t, x, db);
    ModulesAreRead(x.msg, ns);
  }

  /** A database's modules are those of the messages that got as far as their page. */
  lemma {:induction false} ModulesOfRun(r: Resources, ins: seq<Input>, db: string, ns: string)
    ensures ns in ModulesIn(Fold(r, ins), db) <==> Any(ins, Registering(db, ns))
  {
    if ins != [] {
      var n := |ins| - 1;
      ModulesOfRun(r, ins[..n], db, ns);
      ReceiveRegisters(r, Fold(r, ins[..n]), ins[n], db, ns);
      AnyLast(ins, Registering(db, ns));
    }
  }

  /** Its request count is of all messages. */
  lemma {:induction false} RequestsOfRun(r: Resources, ins: seq<Input>, db: string)
    ensures RequestsIn(Fold(r, ins), db) == HowMany(ins, (x: Input) => x.db == db)
  {
    if ins != [] {
      var n := |ins| - 1;
      RequestsOfRun(r, ins[..n], db);
      ReceiveModules(r, Fold(r, ins[..n]), ins[n], db);
    }
  }
}
