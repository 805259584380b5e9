/**
 * What one message adds to the tables of a processor, and the algebra of
 * processors and processor tables. A processor is one database's counters; a
 * table maps database names to processors.
 */
module ProcessorModel {
  import opened Options
  import opened Merging
  import opened KeyCodec
  import opened Increments

  // ----- configuration

  /** The resource maps built from the metrics section of the configuration. */
  datatype Resources = Resources(
    names: seq<string>,
    lastTime: int,
    lastHeap: int,
    lastFrontend: int,
    allocatedObjects: int,
    allocatedBytes: int,
    totalTime: nat,
    pageTime: nat,
    ajaxTime: nat,
    otherTimes: seq<string>)

  ghost predicate ValidResources(r: Resources) {
    && r.totalTime < |r.names| && r.names[r.totalTime] == "total_time"
    && r.pageTime < |r.names| && r.names[r.pageTime] == "page_time"
    && r.ajaxTime < |r.names| && r.names[r.ajaxTime] == "ajax_time"
  }

  // ----- messages

  datatype DropReason = AcceptedMsg | Outlier | NavTiming | Illegal | Corrupted | Invalid

  const NUM_REASONS: nat := 6
  const OUTLIER_THRESHOLD_MS := 60000.0

  /**
   * A parsed message. `tags` are the formatted keys for response code, severity, callers, senders and exceptions;
   * `early` is the verdict of the timing checks and of the request-id tracker on a frontend message.
   */
  datatype Message =
    | Log(ignored: bool, action: Option<string>, logjamAction: Option<string>, minute: nat,
          fields: map<string, real>, tags: set<string>, agent: Option<string>)
    | JsException(logjamAction: Option<string>, description: string, tag: string, minute: nat)
    | Event
    | FrontendPage(early: DropReason, action: Option<string>, logjamAction: Option<string>, minute: nat,
                   fields: map<string, real>, apdexTime: real, agent: Option<string>)
    | FrontendAjax(early: DropReason, action: Option<string>, logjamAction: Option<string>, minute: nat,
                   fields: map<string, real>, agent: Option<string>)

  // ----- pages and modules

  const ALL_PAGES := "all_pages"
  const UNKNOWN_METHOD := "#unknown_method"

  /** strchr; the length when the character does not occur. */
  function IndexOf(s: string, c: char): (i: nat)
    ensures i <= |s| && (i < |s| ==> s[i] == c) && c !in s[..i]
  {
    if s == [] || s[0] == c then 0
    else
      var i := 1 + IndexOf(s[1..], c);
      assert s[..i] == [s[0]] + s[1..][..i-1];
      i
  }

  function FirstOf(a: Option<string>, b: Option<string>): (s: string) {
    if a.Some? then a.value else if b.Some? then b.value else "Unknown#unknown_method"
  }

  function WithMethod(s: string): (page: string)
    ensures '#' in page
  {
    assert '#' !in s ==> (s + "#unknown_method")[|s|] == '#';
    if '#' !in s then s + "#unknown_method"
    else if s[|s|-1] == '#' then s + "unknown_method"
    else s
  }

  /** processor_setup_page */
  function PageOf(action: Option<string>, logjamAction: Option<string>): (page: string)
    ensures '#' in page
  {
    var s := FirstOf(action, logjamAction);
    assert "Unknown#unknown_method"[7] == '#';
    if s == "" then "Unknown#unknown_method" else WithMethod(s)
  }

  /** extract_page_for_jse: no special case for the empty string. */
  function JsPageOf(logjamAction: Option<string>): (page: string) {
    WithMethod(FirstOf(logjamAction, None))
  }

  /** processor_setup_module */
  function ModuleOf(page: string): (m: string) {
    if ':' in page then "::" + page[..IndexOf(page, ':')]
    else if '#' in page then "::" + page[..IndexOf(page, '#')]
    else "::"
  }

  lemma EndsInMethod(s: string)
    ensures var page := WithMethod(s); page[|page| - 1] != '#'
  {
    var page := WithMethod(s);
    if '#' !in s {
      assert page == s + "#unknown_method" && page[|page| - 1] == "#unknown_method"[14];
    } else if s[|s| - 1] == '#' {
      assert page == s + "unknown_method" && page[|page| - 1] == "unknown_method"[13];
    }
  }

  lemma ModuleLength(page: string)
    requires '#' in page
    ensures |ModuleOf(page)| == 2 + if ':' in page then IndexOf(page, ':') else IndexOf(page, '#')
    ensures IndexOf(page, '#') < |page| && (':' in page <==> IndexOf(page, ':') < |page|)
  {
    assert page[..|page|] == page;
  }

  /** The module has room in the length of its page, unless the page ends with its first colon. */
  lemma ModuleFits(s: string)
    ensures var page := WithMethod(s); |ModuleOf(page)| <= |page| <==> IndexOf(page, ':') != |page| - 1
  {
    EndsInMethod(s);
    ModuleLength(WithMethod(s));
  }

  lemma ModuleMayNotFit()
    ensures WithMethod("a#b:") == "a#b:" && |ModuleOf("a#b:")| == 5
  {
    var page := "a#b:";
    assert page[1] == '#' && page[3] == ':';
    assert page[0] != ':' && page[1] != ':' && page[2] != ':';
    ModuleLength(page);
  }

  /** A page, its module and "all_pages" are always three different namespaces. */
  lemma NamespacesDiffer(page: string)
    requires '#' in page
    ensures page != ModuleOf(page) && page != ALL_PAGES && ModuleOf(page) != ALL_PAGES
  {
    var m := ModuleOf(page);
    assert m[0] == ':' && m[1] == ':';
    assert ALL_PAGES[0] == 'a';
    if page[0] == ':' {
      assert m == "::";
    }
  }

  /** strstr finds `t` in `s`. */
  predicate Contains(s: string, t: string) {
    t <= s || (s != [] && Contains(s[1..], t))
  }

  // ----- times and other derived fields

  /** processor_setup_time: a missing or zero time counts as one millisecond. */
  function TimeOf(fields: map<string, real>, name: string): (t: real)
    ensures t != 0.0
  {
    if name in fields && fields[name] != 0.0 then fields[name] else 1.0
  }

  function SumOf(fields: map<string, real>, names: seq<string>): (t: real) {
    if names == [] then 0.0
    else (if names[0] in fields then fields[names[0]] else 0.0) + SumOf(fields, names[1..])
  }

  function WithAllocatedMemory(fields: map<string, real>): (r: map<string, real>) {
    if "allocated_memory" in fields || "allocated_objects" !in fields || "allocated_bytes" !in fields then fields
    else fields["allocated_memory" := fields["allocated_bytes"] + 40.0 * fields["allocated_objects"]]
  }

  function LogFields(r: Resources, fields: map<string, real>): (f: map<string, real>) {
    var t := TimeOf(fields, "total_time");
    var f := fields["total_time" := t];
    WithAllocatedMemory(f["other_time" := t - SumOf(f, r.otherTimes)])
  }

  function FrontendFields(fields: map<string, real>, name: string): (f: map<string, real>) {
    var t := TimeOf(fields, name);
    fields[name := t]["frontend_time" := t]
  }

  // ----- buckets

  const BUCKETS: seq<nat> := [
    1, 3, 10, 30, 100, 300, 1000, 3000, 10000, 30000, 100000, 300000, 1000000, 3000000, 10000000, 30000000,
    100000000, 300000000, 1000000000, 3000000000, 10000000000, 30000000000]

  const HISTOGRAM_SIZE: nat := 22

  function BucketFrom(value: real, i: nat): (b: nat)
    requires i < HISTOGRAM_SIZE
    ensures i <= b < HISTOGRAM_SIZE
    decreases HISTOGRAM_SIZE - i
  {
    if i + 1 < HISTOGRAM_SIZE && BUCKETS[i] as real < value then BucketFrom(value, i + 1) else i
  }

  function BucketIndex(value: real): (b: nat)
    ensures b < HISTOGRAM_SIZE
  {
    BucketFrom(value, 0)
  }

  /** A bucket is the first whose limit is not below the value; the last one has no limit. */
  lemma {:induction false} BucketBounds(value: real, i: nat, j: nat)
    requires i < HISTOGRAM_SIZE
    ensures i <= j < BucketFrom(value, i) ==> (BUCKETS[j] as real) < value
    ensures BucketFrom(value, i) + 1 < HISTOGRAM_SIZE ==> value <= BUCKETS[BucketFrom(value, i)] as real
    decreases HISTOGRAM_SIZE - i
  {
    if i + 1 < HISTOGRAM_SIZE && BUCKETS[i] as real < value {
      BucketBounds(value, i + 1, if j == i then i + 1 else j);
    }
  }

  /** An array of zeros with a single one. */
  function Unit(i: nat, size: nat): (c: seq<int>)
    ensures |c| == size && forall j :: 0 <= j < size ==> c[j] == if j == i then 1 else 0
  {
    seq(size, j => if j == i then 1 else 0)
  }

  // ----- what one message adds

  datatype Agent = Agent(backend: int, frontend: int, dropped: int, reasons: seq<int>)

  datatype Effect = Effect(
    modules: set<string>,
    totals: seq<(string, Incs)>,
    minutes: seq<(string, Incs)>,
    quants: seq<(string, seq<int>)>,
    histograms: seq<(string, seq<int>)>,
    agents: seq<(string, Agent)>)

  const NO_EFFECT := Effect({}, [], [], [], [], [])

  function EachTotal(spaces: seq<string>, incs: Incs): (es: seq<(string, Incs)>)
    ensures |es| == |spaces| && forall i :: 0 <= i < |spaces| ==> es[i] == (spaces[i], incs)
  {
    seq(|spaces|, i requires 0 <= i < |spaces| => (spaces[i], incs))
  }

  function EachMinute(spaces: seq<string>, minute: nat, incs: Incs): (es: seq<(string, Incs)>)
    ensures |es| == |spaces| && forall i :: 0 <= i < |spaces| ==> es[i] == (MinuteKey(minute, spaces[i]), incs)
  {
    seq(|spaces|, i requires 0 <= i < |spaces| => (MinuteKey(minute, spaces[i]), incs))
  }

  function EachHistogram(spaces: seq<string>, minute: nat, resource: string, time: real)
    : (es: seq<(string, seq<int>)>)
    ensures |es| == |spaces|
    ensures forall i :: 0 <= i < |spaces| ==>
              es[i] == (HistogramKey(minute, resource, spaces[i]), Unit(BucketIndex(time), HISTOGRAM_SIZE))
  {
    seq(|spaces|, i requires 0 <= i < |spaces| =>
      (HistogramKey(minute, resource, spaces[i]), Unit(BucketIndex(time), HISTOGRAM_SIZE)))
  }

  /** The kind and the scale of a resource's quants, if it has any. */
  function QuantKind(r: Resources, i: nat): (k: Option<(char, int)>) {
    if i <= r.lastTime then Some(('t', 1))
    else if i == r.allocatedObjects then Some(('m', 1))
    else if i == r.allocatedBytes then Some(('m', 1024))
    else if r.lastHeap < i <= r.lastFrontend then Some(('f', 1))
    else None
  }

  function Quant(value: real, scale: int): (q: nat)
    requires scale > 0
  {
    BUCKETS[BucketIndex(value / scale as real)] * scale
  }

  /** processor_add_quants for the resources from `i` on. */
  function EachQuant(r: Resources, page: string, metrics: seq<Metric>, i: nat): (es: seq<(string, seq<int>)>)
    requires i <= |metrics|
    decreases |metrics| - i
  {
    if i == |metrics| then []
    else
      var rest := EachQuant(r, page, metrics, i + 1);
      var val := metrics[i].val;
      var kind := QuantKind(r, i);
      if val <= 0.0 || kind.None? then rest
      else
        var (c, scale) := kind.value;
        var q := Quant(val, scale);
        [(QuantKey(c, q, page), Unit(i, |metrics|)), (QuantKey(c, q, ALL_PAGES), Unit(i, |metrics|))] + rest
  }

  function Reason(reason: DropReason): (i: nat)
    ensures i < NUM_REASONS
  {
    match reason
    case AcceptedMsg => 0
    case Outlier => 1
    case NavTiming => 2
    case Illegal => 3
    case Corrupted => 4
    case Invalid => 5
  }

  function BackendAgent(agent: Option<string>): (es: seq<(string, Agent)>) {
    if agent.None? then [] else [(agent.value, Agent(1, 0, 0, Unit(NUM_REASONS, NUM_REASONS)))]
  }

  function FrontendAgent(agent: Option<string>, reason: DropReason): (es: seq<(string, Agent)>) {
    if agent.None? then []
    else [(agent.value, Agent(0, 1, if reason == AcceptedMsg then 0 else 1, Unit(Reason(reason), NUM_REASONS)))]
  }

  function NamedTags(tags: set<string>): (others: map<Tag, int>) {
    map t | t in tags :: Named(t) := 1
  }

  /**
   * The counters a message adds, the namespaces it adds them to and, for a request, the histogram resource with its
   * time. A request's first namespace is its page.
   */
  datatype Share = Share(spaces: seq<string>, minute: nat, incs: Incs, timed: Option<(string, real)>)

  function RequestShare(page: string, minute: nat, incs: Incs, resource: string, time: real): (s: Share) {
    Share([page, ModuleOf(page), ALL_PAGES], minute, incs, Some((resource, time)))
  }

  /** processor_add_request */
  function LogShare(r: Resources, m: Message): (s: Option<Share>)
    requires m.Log?
  {
    var t := TimeOf(m.fields, "total_time");
    if m.ignored then None
    else Some(RequestShare(PageOf(m.action, m.logjamAction), m.minute,
                           Incs(1, 0, 0, Filled(r.names, LogFields(r, m.fields)),
                                Scores(Apdex, t) + NamedTags(m.tags)),
                           "total_time", t))
  }

  /**
   * The namespaces of a javascript exception; the module test of the source never fails, as modules
   * start with "::".
   */
  function JsSpaces(page: string): (spaces: seq<string>) {
    [ALL_PAGES]
    + (if Contains(page, UNKNOWN_METHOD) then [] else [page])
    + (if ModuleOf(page) != "Unknown" then [ModuleOf(page)] else [])
  }

  /** processor_add_js_exception */
  function JsShare(r: Resources, m: Message): (s: Option<Share>)
    requires m.JsException?
  {
    if m.description == "" then None
    else Some(Share(JsSpaces(JsPageOf(m.logjamAction)), m.minute,
                    Incs(0, 0, 0, seq(|r.names|, _ => NO_METRIC), map[Named(m.tag) := 1]), None))
  }

  /** processor_add_frontend_data */
  function PageShare(r: Resources, m: Message): (s: Option<Share>)
    requires m.FrontendPage?
  {
    var t := TimeOf(m.fields, "page_time");
    if m.early != AcceptedMsg || t > OUTLIER_THRESHOLD_MS then None
    else Some(RequestShare(PageOf(m.action, m.logjamAction), m.minute,
                           Incs(0, 1, 0, Filled(r.names, FrontendFields(m.fields, "page_time")),
                                Scores(Fapdex, t) + Scores(Papdex, m.apdexTime)),
                           "page_time", t))
  }

  /** processor_add_ajax_data */
  function AjaxShare(r: Resources, m: Message): (s: Option<Share>)
    requires m.FrontendAjax?
  {
    var t := TimeOf(m.fields, "ajax_time");
    if m.early != AcceptedMsg || t > OUTLIER_THRESHOLD_MS then None
    else Some(RequestShare(PageOf(m.action, m.logjamAction), m.minute,
                           Incs(0, 0, 1, Filled(r.names, FrontendFields(m.fields, "ajax_time")),
                                Scores(Fapdex, t) + Scores(Xapdex, t)),
                           "ajax_time", t))
  }

  function ShareOf(r: Resources, m: Message): (s: Option<Share>) {
    match m
    case Log(_, _, _, _, _, _, _) => LogShare(r, m)
    case JsException(_, _, _, _) => JsShare(r, m)
    case Event => None
    case FrontendPage(_, _, _, _, _, _, _) => PageShare(r, m)
    case FrontendAjax(_, _, _, _, _, _) => AjaxShare(r, m)
  }

  /** A dropped frontend message counts for its user agent only. */
  function AgentsOf(m: Message): (es: seq<(string, Agent)>) {
    match m
    case Log(ignored, _, _, _, _, _, agent) => if ignored then [] else BackendAgent(agent)
    case FrontendPage(early, _, _, _, fields, _, agent) => FrontendAgent(agent, Verdict(early, fields, "page_time"))
    case FrontendAjax(early, _, _, _, fields, agent) => FrontendAgent(agent, Verdict(early, fields, "ajax_time"))
    case _ => []
  }

  function Verdict(early: DropReason, fields: map<string, real>, name: string): (reason: DropReason) {
    if early != AcceptedMsg then early
    else if TimeOf(fields, name) > OUTLIER_THRESHOLD_MS then Outlier
    else AcceptedMsg
  }

  /** An outlier has registered its module by the time it is dropped. */
  function ModulesOf(m: Message): (ms: set<string>) {
    match m
    case Log(ignored, action, logjamAction, _, _, _, _) =>
      if ignored then {} else {ModuleOf(PageOf(action, logjamAction))}
    case JsException(logjamAction, description, _, _) =>
      if description == "" then {} else {ModuleOf(JsPageOf(logjamAction))}
    case Event => {}
    case FrontendPage(early, action, logjamAction, _, _, _, _) =>
      if early != AcceptedMsg then {} else {ModuleOf(PageOf(action, logjamAction))}
    case FrontendAjax(early, action, logjamAction, _, _, _) =>
      if early != AcceptedMsg then {} else {ModuleOf(PageOf(action, logjamAction))}
  }

  function ShareEffect(r: Resources, s: Share): (e: Effect) {
    Effect({}, EachTotal(s.spaces, s.incs), EachMinute(s.spaces, s.minute, s.incs),
           if s.timed.Some? && s.spaces != [] then EachQuant(r, s.spaces[0], s.incs.metrics, 0) else [],
           if s.timed.Some? then EachHistogram(s.spaces, s.minute, s.timed.value.0, s.timed.value.1) else [],
           [])
  }

  function EffectOf(r: Resources, m: Message): (e: Effect) {
    (match ShareOf(r, m)
     case None => NO_EFFECT
     case Some(s) => ShareEffect(r, s)).(modules := ModulesOf(m), agents := AgentsOf(m))
  }

  // ----- processors

  datatype Proc = Proc(
    requests: int,
    modules: set<string>,
    totals: map<string, Incs>,
    minutes: map<string, Incs>,
    quants: map<string, seq<int>>,
    histograms: map<string, seq<int>>,
    agents: map<string, Agent>)

  const EMPTY_PROC := Proc(0, {}, map[], map[], map[], map[], map[])

  function AddCounts(a: seq<int>, b: seq<int>): (c: seq<int>) { Zip(Plus, a, b) }

  function AddAgent(a: Agent, b: Agent): (c: Agent) {
    Agent(a.backend + b.backend, a.frontend + b.frontend, a.dropped + b.dropped, AddCounts(a.reasons, b.reasons))
  }

  function Apply(p: Proc, e: Effect): (q: Proc) {
    Proc(p.requests + 1, p.modules + e.modules,
         AddAll(AddIncs, p.totals, e.totals), AddAll(AddIncs, p.minutes, e.minutes),
         AddAll(AddCounts, p.quants, e.quants), AddAll(AddCounts, p.histograms, e.histograms),
         AddAll(AddAgent, p.agents, e.agents))
  }

  function MergeProc(a: Proc, b: Proc): (c: Proc) {
    Proc(a.requests + b.requests, a.modules + b.modules,
         Merge(AddIncs, a.totals, b.totals), Merge(AddIncs, a.minutes, b.minutes),
         Merge(AddCounts, a.quants, b.quants), Merge(AddCounts, a.histograms, b.histograms),
         Merge(AddAgent, a.agents, b.agents))
  }

  lemma AddCountsLaws()
    ensures Commutes(AddCounts) && Associates(AddCounts)
  {
    forall a, b ensures AddCounts(a, b) == AddCounts(b, a) { ZipCommutes(Plus, a, b); }
    forall a, b, c ensures AddCounts(AddCounts(a, b), c) == AddCounts(a, AddCounts(b, c)) {
      ZipAssociates(Plus, a, b, c);
    }
  }

  lemma AddAgentLaws()
    ensures Commutes(AddAgent) && Associates(AddAgent)
  {
    AddCountsLaws();
  }

  lemma MergeProcCommutes(a: Proc, b: Proc)
    ensures MergeProc(a, b) == MergeProc(b, a)
  {
    AddIncsLaws();
    AddCountsLaws();
    AddAgentLaws();
    MergeCommutes(AddIncs, a.totals, b.totals);
    MergeCommutes(AddIncs, a.minutes, b.minutes);
    MergeCommutes(AddCounts, a.quants, b.quants);
    MergeCommutes(AddCounts, a.histograms, b.histograms);
    MergeCommutes(AddAgent, a.agents, b.agents);
  }

  lemma MergeProcAssociates(a: Proc, b: Proc, c: Proc)
    ensures MergeProc(MergeProc(a, b), c) == MergeProc(a, MergeProc(b, c))
  {
    AddIncsLaws();
    AddCountsLaws();
    AddAgentLaws();
    MergeAssociates(AddIncs, a.totals, b.totals, c.totals);
    MergeAssociates(AddIncs, a.minutes, b.minutes, c.minutes);
    MergeAssociates(AddCounts, a.quants, b.quants, c.quants);
    MergeAssociates(AddCounts, a.histograms, b.histograms, c.histograms);
    MergeAssociates(AddAgent, a.agents, b.agents, c.agents);
  }

  lemma MergeProcLaws()
    ensures Commutes(MergeProc) && Associates(MergeProc)
  {
    forall a, b ensures MergeProc(a, b) == MergeProc(b, a) { MergeProcCommutes(a, b); }
    forall a, b, c ensures MergeProc(MergeProc(a, b), c) == MergeProc(a, MergeProc(b, c)) {
      MergeProcAssociates(a, b, c);
    }
  }

  /** A message adds the same to every processor: what it makes of an empty one. */
  lemma ApplyMerges(p: Proc, e: Effect)
    ensures Apply(p, e) == MergeProc(p, Apply(EMPTY_PROC, e))
  {
    AddIncsLaws();
    AddCountsLaws();
    AddAgentLaws();
    AddAllMerges(AddIncs, p.totals, e.totals);
    AddAllMerges(AddIncs, p.minutes, e.minutes);
    AddAllMerges(AddCounts, p.quants, e.quants);
    AddAllMerges(AddCounts, p.histograms, e.histograms);
    AddAllMerges(AddAgent, p.agents, e.agents);
  }

  // ----- tables

  type Table = map<string, Proc>

  datatype Input = Input(db: string, msg: Message)

  function MergeTables(a: Table, b: Table): (c: Table) { Merge(MergeProc, a, b) }

  /** A parser finds or creates the database's processor and lets the message update it. */
  function Receive(r: Resources, t: Table, i: Input): (t': Table) {
    t[i.db := Apply(if i.db in t then t[i.db] else EMPTY_PROC, EffectOf(r, i.msg))]
  }

  /** One sequential processor table fed with all messages. */
  function Fold(r: Resources, ins: seq<Input>): (t: Table) {
    if ins == [] then map[] else Receive(r, Fold(r, ins[..|ins|-1]), ins[|ins|-1])
  }

  lemma ReceiveMerges(r: Resources, t: Table, i: Input)
    ensures Receive(r, t, i) == MergeTables(t, Fold(r, [i]))
  {
    var one: Table := map[];
    var d := Apply(EMPTY_PROC, EffectOf(r, i.msg));
    assert [i][..0] == [];
    assert Fold(r, [i]) == map[i.db := d];
    if i.db in t { ApplyMerges(t[i.db], EffectOf(r, i.msg)); }
    AddAtMerges(MergeProc, t, i.db, d);
  }

  lemma MergeTablesLaws(a: Table, b: Table, c: Table)
    ensures MergeTables(a, b) == MergeTables(b, a)
    ensures MergeTables(MergeTables(a, b), c) == MergeTables(a, MergeTables(b, c))
    ensures MergeTables(a, map[]) == a == MergeTables(map[], a)
  {
    MergeProcLaws();
    MergeCommutes(MergeProc, a, b);
    MergeAssociates(MergeProc, a, b, c);
    MergeEmpty(MergeProc, a);
  }

  /** Sharding: feeding two tables and merging them is feeding one. */
  lemma {:induction false} FoldConcat(r: Resources, a: seq<Input>, b: seq<Input>)
    ensures Fold(r, a + b) == MergeTables(Fold(r, a), Fold(r, b))
    decreases |b|
  {
    if b == [] {
      assert a + b == a;
      MergeTablesLaws(Fold(r, a), map[], map[]);
    } else {
      var n := |b| - 1;
      assert (a + b)[..|a + b| - 1] == a + b[..n];
      FoldConcat(r, a, b[..n]);
      ReceiveMerges(r, Fold(r, a + b[..n]), b[n]);
      ReceiveMerges(r, Fold(r, b[..n]), b[n]);
      MergeTablesLaws(Fold(r, a), Fold(r, b[..n]), Fold(r, [b[n]]));
    }
  }

  /** The order in which messages are processed does not matter. */
  lemma {:induction false} FoldPermutes(r: Resources, a: seq<Input>, b: seq<Input>)
    requires multiset(a) == multiset(b)
    ensures Fold(r, a) == Fold(r, b)
    decreases |a|
  {
    if a == [] {
      assert |b| == |multiset(b)| == |multiset(a)| == 0;
    } else {
      var n := |a| - 1;
      var x := a[n];
      assert a == a[..n] + [x];
      assert x in multiset(a);
      var j :| 0 <= j < |b| && b[j] == x;
      var b1, b2 := b[..j], b[j+1..];
      assert b == b1 + [x] + b2;
      SameWithoutOne(a[..n], b1, b2, x);
      FoldPermutes(r, a[..n], b1 + b2);
      FoldConcat(r, a[..n], [x]);
      FoldConcat(r, b1 + [x], b2);
      FoldConcat(r, b1, [x]);
      FoldConcat(r, b1, b2);
      Rotate(Fold(r, b1), Fold(r, [x]), Fold(r, b2));
    }
  }

  lemma SameWithoutOne(a: seq<Input>, b1: seq<Input>, b2: seq<Input>, x: Input)
    requires multiset(a + [x]) == multiset(b1 + [x] + b2)
    ensures multiset(a) == multiset(b1 + b2)
  {
    assert multiset(a) == multiset(a + [x]) - multiset{x};
    assert multiset(b1 + b2) == multiset(b1 + [x] + b2) - multiset{x};
  }

  lemma Rotate(a: Table, x: Table, b: Table)
    ensures MergeTables(MergeTables(a, x), b) == MergeTables(MergeTables(a, b), x)
  {
    MergeTablesLaws(a, x, b);
    MergeTablesLaws(x, b, map[]);
    MergeTablesLaws(a, b, x);
  }
}
