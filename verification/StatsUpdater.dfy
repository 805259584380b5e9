/** The stats updater: takes keys apart, builds update documents and applies them as upserts. */
module StatsUpdater {
  import opened Options
  import opened Merging
  import opened KeyCodec
  import opened Increments
  import opened ProcessorModel
  import opened Cells
  import opened Pipeline

  /** An update document: the fields of `$inc` and those of `$max`. */
  datatype Document = Document(incs: map<Field, real>, maxs: map<Field, real>)

  ghost predicate WellFormed(d: Document) {
    (forall f :: f in d.incs ==> !f.ValMax?) && (forall f :: f in d.maxs ==> f.ValMax?)
  }

  function DocumentCell(d: Document, f: Field): (v: Option<real>) {
    if f.ValMax? then At(d.maxs, f) else At(d.incs, f)
  }

  /** An upsert creates the document if it is missing, adds `$inc` fields and raises `$max` fields. */
  function Upsert(db: Database, doc: Doc, d: Document): (db': Database) {
    var stored := if doc in db then db[doc] else map[];
    db[doc := Merge(Max, Merge(Add, stored, d.incs), d.maxs)]
  }

  lemma UpsertCell(db: Database, doc: Doc, d: Document, c: Cell)
    requires WellFormed(d)
    ensures DbCell(Upsert(db, doc, d), c) ==
            if c.doc == doc then Join(OpOf(c.field), DbCell(db, c), DocumentCell(d, c.field)) else DbCell(db, c)
  {
    if c.doc == doc {
      var stored := if doc in db then db[doc] else map[];
      assert At(Merge(Max, Merge(Add, stored, d.incs), d.maxs), c.field)
          == Join(Max, Join(Add, At(stored, c.field), At(d.incs, c.field)), At(d.maxs, c.field));
      if c.field.ValMax? {
        assert c.field !in d.incs;
      } else {
        assert c.field !in d.maxs;
      }
    }
  }

  // ----- increments_to_bson

  predicate IsCount(f: Field) { f.RequestCount? || f.PageCount? || f.AjaxCount? || f.FrontendCount? }

  predicate IsSum(f: Field) { f.Val? || f.ValSquared? }

  predicate IsMaximum(f: Field) { f.ValMax? }

  predicate IsOther(f: Field) { f.Other? }

  /** A map of exactly the fields of some kind that the counters write. */
  ghost predicate Covers(fields: map<Field, real>, incs: Incs, kind: Field -> bool) {
    forall f :: At(fields, f) == if kind(f) then IncsCell(incs, f) else None
  }

  method CountFields(incs: Incs) returns (fields: map<Field, real>)
    ensures Covers(fields, incs, IsCount)
  {
    fields := map[];
    if incs.backend != 0 { fields := fields[RequestCount := incs.backend as real]; }
    var frontend := 0;
    if incs.page != 0 {
      frontend := frontend + incs.page;
      fields := fields[PageCount := incs.page as real];
    }
    if incs.ajax != 0 {
      frontend := frontend + incs.ajax;
      fields := fields[AjaxCount := incs.ajax as real];
    }
    if frontend != 0 { fields := fields[FrontendCount := frontend as real]; }
  }

  method MetricFields(incs: Incs) returns (sums: map<Field, real>, maxs: map<Field, real>)
    ensures Covers(sums, incs, IsSum) && Covers(maxs, incs, IsMaximum)
  {
    sums, maxs := map[], map[];
    for i := 0 to |incs.metrics|
      invariant forall f :: At(sums, f) == (if IsSum(f) && f.i < i then IncsCell(incs, f) else None)
      invariant forall f :: At(maxs, f) == (if IsMaximum(f) && f.i < i then IncsCell(incs, f) else None)
    {
      var metric := incs.metrics[i];
      if metric.val > 0.0 {
        sums := sums[Val(i) := metric.val][ValSquared(i) := metric.valSquared];
        maxs := maxs[ValMax(i) := metric.valMax];
      }
    }
  }

  method OtherFields(incs: Incs) returns (fields: map<Field, real>)
    ensures Covers(fields, incs, IsOther)
  {
    fields := map tag | tag in incs.others :: Other(tag) := incs.others[tag] as real;
  }

  lemma UnionCovers(incs: Incs, counts: map<Field, real>, sums: map<Field, real>, others: map<Field, real>, f: Field)
    requires Covers(counts, incs, IsCount) && Covers(sums, incs, IsSum) && Covers(others, incs, IsOther)
    ensures At(counts + sums + others, f) == if f.ValMax? then None else IncsCell(incs, f)
  {
    var all := counts + sums + others;
    assert At(all, f) == if f in others then At(others, f) else if f in sums then At(sums, f) else At(counts, f);
    assert f in others <==> At(others, f).Some?;
    assert f in sums <==> At(sums, f).Some?;
  }

  /** increments_to_bson */
  method IncrementsToDocument(incs: Incs) returns (d: Document)
    ensures WellFormed(d)
    ensures forall f :: DocumentCell(d, f) == IncsCell(incs, f)
  {
    var counts := CountFields(incs);
    var sums, maxs := MetricFields(incs);
    var others := OtherFields(incs);
    d := Document(counts + sums + others, maxs);
    forall f ensures At(d.incs, f) == if f.ValMax? then None else IncsCell(incs, f) {
      UnionCovers(incs, counts, sums, others, f);
    }
    assert forall f :: f in d.incs <==> At(d.incs, f).Some?;
    assert forall f :: f in d.maxs <==> At(d.maxs, f).Some?;
  }

  /** The document of a quants array. */
  method QuantsDocument(counts: seq<int>) returns (d: Document)
    ensures WellFormed(d)
    ensures forall f :: DocumentCell(d, f) == if f.QuantOf? then Positive(counts, f.i) else None
  {
    var incs: map<Field, real> := map[];
    for i := 0 to |counts|
      invariant forall f :: At(incs, f) == (if f.QuantOf? && f.i < i then Positive(counts, f.i) else None)
    {
      if counts[i] > 0 {
        incs := incs[QuantOf(i) := counts[i] as real];
      }
    }
    d := Document(incs, map[]);
    assert forall f :: f in incs <==> At(incs, f).Some?;
  }

  /** The document of a histogram of one resource. */
  method HistogramDocument(counts: seq<int>, resource: string) returns (d: Document)
    ensures WellFormed(d)
    ensures forall f ::
              DocumentCell(d, f) == if f.Bucket? && f.resource == resource then Positive(counts, f.i) else None
  {
    var incs: map<Field, real> := map[];
    for i := 0 to |counts|
      invariant forall f ::
                  At(incs, f) ==
                  (if f.Bucket? && f.resource == resource && f.i < i then Positive(counts, f.i) else None)
    {
      if counts[i] > 0 {
        incs := incs[Bucket(resource, i) := counts[i] as real];
      }
    }
    d := Document(incs, map[]);
    assert forall f :: f in incs <==> At(incs, f).Some?;
  }

  /** The document of a user agent; the reason "accepted" is not stored. */
  method AgentDocument(a: Agent) returns (d: Document)
    requires |a.reasons| == NUM_REASONS
    ensures WellFormed(d)
    ensures forall f :: DocumentCell(d, f) == AgentCell(a, f)
  {
    var incs := map[AgentBackend := a.backend as real, AgentFrontend := a.frontend as real,
                    AgentDropped := a.dropped as real];
    for i := 1 to NUM_REASONS
      invariant forall f :: At(incs, f) == (if f.AgentReason? && f.i >= i then None else AgentCell(a, f))
    {
      if a.reasons[i] > 0 {
        incs := incs[AgentReason(i) := a.reasons[i] as real];
      }
    }
    d := Document(incs, map[]);
    assert forall f :: f in incs <==> At(incs, f).Some?;
  }

  // ----- writing a task

  /** A table that has grown by the record behind one document. */
  ghost predicate GrownBy(t: Table, t': Table, doc: Doc, d: Document) {
    forall c: Cell :: TableCell(t', c) ==
                      Join(OpOf(c.field), TableCell(t, c), if c.doc == doc then DocumentCell(d, c.field) else None)
  }

  lemma UpsertWrites(db0: Database, db: Database, t: Table, t': Table, doc: Doc, d: Document)
    requires WellFormed(d) && Wrote(db0, db, t) && GrownBy(t, t', doc, d)
    ensures Wrote(db0, Upsert(db, doc, d), t')
  {
    forall c: Cell ensures DbCell(Upsert(db, doc, d), c) == Join(OpOf(c.field), DbCell(db0, c), TableCell(t', c)) {
      UpsertCell(db, doc, d, c);
      JoinAssociates(c.field, DbCell(db0, c), TableCell(t, c), DocumentCell(d, c.field));
    }
  }

  function TotalsTask(db: string, m: map<string, Incs>): (t: Table) { map[db := EMPTY_PROC.(totals := m)] }

  function MinutesTask(db: string, m: map<string, Incs>): (t: Table) { map[db := EMPTY_PROC.(minutes := m)] }

  function QuantsTask(db: string, m: map<string, seq<int>>): (t: Table) { map[db := EMPTY_PROC.(quants := m)] }

  function HistogramsTask(db: string, m: map<string, seq<int>>): (t: Table) { map[db := EMPTY_PROC.(histograms := m)] }

  function AgentsTask(db: string, m: map<string, Agent>): (t: Table) { map[db := EMPTY_PROC.(agents := m)] }

  /** The entries written so far and those to go. */
  ghost predicate Split<V>(all: map<string, V>, rest: map<string, V>, written: map<string, V>) {
    && (forall k :: k in rest <==> k in all && k !in written)
    && (forall k :: k in rest ==> rest[k] == all[k])
    && (forall k :: k in written ==> k in all && written[k] == all[k])
  }

  lemma SplitOne<V>(all: map<string, V>, rest: map<string, V>, written: map<string, V>, key: string)
    requires Split(all, rest, written) && key in rest
    ensures Split(all, rest - {key}, written[key := rest[key]])
  {
  }

  lemma SplitDone<V>(all: map<string, V>, written: map<string, V>)
    requires Split(all, map[], written)
    ensures written == all
  {
    var none: map<string, V> := map[];
    assert forall k :: k in none <==> k in all && k !in written;
  }

  lemma NothingWritten(db: Database, name: string)
    ensures Wrote(db, db, map[name := EMPTY_PROC])
  {
  }

  lemma TotalsGrow(name: string, written: map<string, Incs>, ns: string, incs: Incs, d: Document)
    requires ns !in written && forall f :: DocumentCell(d, f) == IncsCell(incs, f)
    ensures GrownBy(TotalsTask(name, written), TotalsTask(name, written[ns := incs]), TotalsDoc(name, ns), d)
  {
  }

  lemma AgentsGrow(name: string, written: map<string, Agent>, agent: string, stats: Agent, d: Document)
    requires agent !in written && forall f :: DocumentCell(d, f) == AgentCell(stats, f)
    ensures GrownBy(AgentsTask(name, written), AgentsTask(name, written[agent := stats]), AgentsDoc(name, agent), d)
  {
  }

  /** update_collection with totals_add_increments */
  method UpdateTotals(db0: Database, name: string, updates: map<string, Incs>) returns (db: Database)
    ensures Wrote(db0, db, TotalsTask(name, updates))
  {
    db := db0;
    NothingWritten(db0, name);
    var rest := updates;
    ghost var written: map<string, Incs> := map[];
    while rest != map[]
      invariant Split(updates, rest, written) && Wrote(db0, db, TotalsTask(name, written))
      decreases |rest|
    {
      var ns :| ns in rest;
      var d := IncrementsToDocument(rest[ns]);
      TotalsGrow(name, written, ns, rest[ns], d);
      UpsertWrites(db0, db, TotalsTask(name, written), TotalsTask(name, written[ns := rest[ns]]), TotalsDoc(name, ns),
                   d);
      db := Upsert(db, TotalsDoc(name, ns), d);
      SplitOne(updates, rest, written, ns);
      written, rest := written[ns := rest[ns]], rest - {ns};
    }
    SplitDone(updates, written);
  }

  ghost predicate MinuteKeys(m: map<string, Incs>) {
    forall k :: k in m ==> exists minute: nat, ns :: k == MinuteKey(minute, ns)
  }

  lemma MinutesGrow(name: string, written: map<string, Incs>, minute: nat, ns: string, incs: Incs, d: Document)
    requires MinuteKey(minute, ns) !in written && forall f :: DocumentCell(d, f) == IncsCell(incs, f)
    ensures GrownBy(MinutesTask(name, written), MinutesTask(name, written[MinuteKey(minute, ns) := incs]),
                    MinutesDoc(name, ns, minute), d)
  {
    var t, t' := MinutesTask(name, written), MinutesTask(name, written[MinuteKey(minute, ns) := incs]);
    forall c: Cell ensures TableCell(t', c) ==
        Join(OpOf(c.field), TableCell(t, c),
             if c.doc == MinutesDoc(name, ns, minute) then DocumentCell(d, c.field) else None)
    {
      if c.doc.MinutesDoc? && MinuteKey(c.doc.minute, c.doc.page) == MinuteKey(minute, ns) {
        MinuteKeyInjective(c.doc.minute, c.doc.page, minute, ns);
      }
    }
  }

  /** update_collection with minutes_add_increments */
  method UpdateMinutes(db0: Database, name: string, updates: map<string, Incs>) returns (db: Database)
    requires MinuteKeys(updates)
    ensures Wrote(db0, db, MinutesTask(name, updates))
  {
    db := db0;
    NothingWritten(db0, name);
    var rest := updates;
    ghost var written: map<string, Incs> := map[];
    while rest != map[]
      invariant Split(updates, rest, written) && Wrote(db0, db, MinutesTask(name, written))
      decreases |rest|
    {
      var key :| key in rest;
      ghost var m: nat, ns :| key == MinuteKey(m, ns);
      var minute, page := DecodeMinuteKey(key, m, ns);
      var d := IncrementsToDocument(rest[key]);
      MinutesGrow(name, written, minute, page, rest[key], d);
      UpsertWrites(db0, db, MinutesTask(name, written), MinutesTask(name, written[key := rest[key]]),
                   MinutesDoc(name, page, minute), d);
      db := Upsert(db, MinutesDoc(name, page, minute), d);
      SplitOne(updates, rest, written, key);
      written, rest := written[key := rest[key]], rest - {key};
    }
    SplitDone(updates, written);
  }

  ghost predicate QuantKeys(m: map<string, seq<int>>) {
    forall k :: k in m ==> exists kind, quant: nat, ns :: k == QuantKey(kind, quant, ns)
  }

  lemma QuantsGrow(name: string, written: map<string, seq<int>>, kind: char, quant: nat, ns: string, counts: seq<int>,
                   d: Document)
    requires QuantKey(kind, quant, ns) !in written
    requires forall f :: DocumentCell(d, f) == if f.QuantOf? then Positive(counts, f.i) else None
    ensures GrownBy(QuantsTask(name, written), QuantsTask(name, written[QuantKey(kind, quant, ns) := counts]),
                    QuantsDoc(name, ns, kind, quant), d)
  {
    var t, t' := QuantsTask(name, written), QuantsTask(name, written[QuantKey(kind, quant, ns) := counts]);
    forall c: Cell ensures TableCell(t', c) ==
        Join(OpOf(c.field), TableCell(t, c),
             if c.doc == QuantsDoc(name, ns, kind, quant) then DocumentCell(d, c.field) else None)
    {
      if c.doc.QuantsDoc? && QuantKey(c.doc.kind, c.doc.quant, c.doc.page) == QuantKey(kind, quant, ns) {
        QuantKeyInjective(c.doc.kind, c.doc.quant, c.doc.page, kind, quant, ns);
      }
    }
  }

  /** update_collection with quants_add_quants */
  method UpdateQuants(db0: Database, name: string, updates: map<string, seq<int>>) returns (db: Database)
    requires QuantKeys(updates)
    ensures Wrote(db0, db, QuantsTask(name, updates))
  {
    db := db0;
    NothingWritten(db0, name);
    var rest := updates;
    ghost var written: map<string, seq<int>> := map[];
    while rest != map[]
      invariant Split(updates, rest, written) && Wrote(db0, db, QuantsTask(name, written))
      decreases |rest|
    {
      var key :| key in rest;
      ghost var k, q: nat, ns :| key == QuantKey(k, q, ns);
      var kind, quant, page := DecodeQuantKey(key, k, q, ns);
      var d := QuantsDocument(rest[key]);
      QuantsGrow(name, written, kind, quant, page, rest[key], d);
      UpsertWrites(db0, db, QuantsTask(name, written), QuantsTask(name, written[key := rest[key]]),
                   QuantsDoc(name, page, kind, quant), d);
      db := Upsert(db, QuantsDoc(name, page, kind, quant), d);
      SplitOne(updates, rest, written, key);
      written, rest := written[key := rest[key]], rest - {key};
    }
    SplitDone(updates, written);
  }

  ghost predicate HistogramKeys(m: map<string, seq<int>>) {
    forall k :: k in m ==>
      exists minute: nat, resource, ns :: HyphenFree(resource) && k == HistogramKey(minute, resource, ns)
  }

  lemma HistogramsGrow(name: string, written: map<string, seq<int>>, minute: nat, resource: string, ns: string,
                       counts: seq<int>, d: Document)
    requires HyphenFree(resource) && HistogramKey(minute, resource, ns) !in written
    requires forall f ::
               DocumentCell(d, f) == if f.Bucket? && f.resource == resource then Positive(counts, f.i) else None
    ensures GrownBy(HistogramsTask(name, written),
                    HistogramsTask(name, written[HistogramKey(minute, resource, ns) := counts]),
                    HeatmapDoc(name, ns, minute), d)
  {
    var t := HistogramsTask(name, written);
    var t' := HistogramsTask(name, written[HistogramKey(minute, resource, ns) := counts]);
    forall c: Cell ensures TableCell(t', c) ==
        Join(OpOf(c.field), TableCell(t, c),
             if c.doc == HeatmapDoc(name, ns, minute) then DocumentCell(d, c.field) else None)
    {
      if c.doc.HeatmapDoc? && c.field.Bucket? && HyphenFree(c.field.resource)
         && HistogramKey(c.doc.minute, c.field.resource, c.doc.page) == HistogramKey(minute, resource, ns) {
        HistogramKeyInjective(c.doc.minute, c.field.resource, c.doc.page, minute, resource, ns);
      }
    }
  }

  lemma HistogramWritten(db0: Database, db: Database, name: string, written: map<string, seq<int>>,
                         minute: nat, resource: string, ns: string, counts: seq<int>, d: Document)
    requires HyphenFree(resource) && HistogramKey(minute, resource, ns) !in written
    requires WellFormed(d)
    requires forall f ::
               DocumentCell(d, f) == if f.Bucket? && f.resource == resource then Positive(counts, f.i) else None
    requires Wrote(db0, db, HistogramsTask(name, written))
    ensures Wrote(db0, Upsert(db, HeatmapDoc(name, ns, minute), d),
                  HistogramsTask(name, written[HistogramKey(minute, resource, ns) := counts]))
  {
    HistogramsGrow(name, written, minute, resource, ns, counts, d);
    UpsertWrites(db0, db, HistogramsTask(name, written),
                 HistogramsTask(name, written[HistogramKey(minute, resource, ns) := counts]),
                 HeatmapDoc(name, ns, minute), d);
  }

  /** update_collection with histograms_add_histograms: three resources share a document. */
  method UpdateHistograms(db0: Database, name: string, updates: map<string, seq<int>>) returns (db: Database)
    requires HistogramKeys(updates)
    ensures Wrote(db0, db, HistogramsTask(name, updates))
  {
    db := db0;
    NothingWritten(db0, name);
    var rest := updates;
    ghost var written: map<string, seq<int>> := map[];
    while rest != map[]
      invariant Split(updates, rest, written) && Wrote(db0, db, HistogramsTask(name, written))
      decreases |rest|
    {
      var key :| key in rest;
      ghost var m: nat, r, ns :| HyphenFree(r) && key == HistogramKey(m, r, ns);
      var minute, resource, page := DecodeHistogramKey(key, m, r, ns);
      var d := HistogramDocument(rest[key], resource);
      HistogramWritten(db0, db, name, written, minute, resource, page, rest[key], d);
      db := Upsert(db, HeatmapDoc(name, page, minute), d);
      SplitOne(updates, rest, written, key);
      written, rest := written[key := rest[key]], rest - {key};
    }
    SplitDone(updates, written);
  }

  /** update_collection with agents_add_agent */
  method UpdateAgents(db0: Database, name: string, updates: map<string, Agent>) returns (db: Database)
    requires forall k :: k in updates ==> |updates[k].reasons| == NUM_REASONS
    ensures Wrote(db0, db, AgentsTask(name, updates))
  {
    db := db0;
    NothingWritten(db0, name);
    var rest := updates;
    ghost var written: map<string, Agent> := map[];
    while rest != map[]
      invariant Split(updates, rest, written) && Wrote(db0, db, AgentsTask(name, written))
      decreases |rest|
    {
      var agent :| agent in rest;
      var d := AgentDocument(rest[agent]);
      AgentsGrow(name, written, agent, rest[agent], d);
      UpsertWrites(db0, db, AgentsTask(name, written), AgentsTask(name, written[agent := rest[agent]]),
                   AgentsDoc(name, agent), d);
      db := Upsert(db, AgentsDoc(name, agent), d);
      SplitOne(updates, rest, written, agent);
      written, rest := written[agent := rest[agent]], rest - {agent};
    }
    SplitDone(updates, written);
  }

  // ----- every table that messages and merges produce can be taken apart

  ghost predicate Keyed(p: Proc) {
    && MinuteKeys(p.minutes) && QuantKeys(p.quants) && HistogramKeys(p.histograms)
    && forall k :: k in p.agents ==> |p.agents[k].reasons| == NUM_REASONS
  }

  lemma {:induction false} AddAllKeys<V>(f: (V, V) -> V, m: map<string, V>, es: seq<(string, V)>, key: string)
    requires key in AddAll(f, m, es)
    ensures key in m || exists i :: 0 <= i < |es| && es[i].0 == key
    decreases |es|
  {
    if es != [] {
      AddAllKeys(f, AddAt(f, m, es[0].0, es[0].1), es[1..], key);
      if key !in m && key != es[0].0 {
        var i :| 0 <= i < |es[1..]| && es[1..][i].0 == key;
        assert es[i + 1].0 == key;
      }
    }
  }

  lemma {:induction false} EachQuantKeys(r: Resources, page: string, metrics: seq<Metric>, k: nat, i: nat)
    requires k <= |metrics| && i < |EachQuant(r, page, metrics, k)|
    ensures exists kind, quant: nat, ns :: EachQuant(r, page, metrics, k)[i].0 == QuantKey(kind, quant, ns)
    decreases |metrics| - k
  {
    var val, kind := metrics[k].val, QuantKind(r, k);
    if val <= 0.0 || kind.None? {
      EachQuantKeys(r, page, metrics, k + 1, i);
    } else if i >= 2 {
      EachQuantKeys(r, page, metrics, k + 1, i - 2);
    }
  }

  lemma ShareResource(r: Resources, m: Message)
    requires ShareOf(r, m).Some? && ShareOf(r, m).value.timed.Some?
    ensures HyphenFree(ShareOf(r, m).value.timed.value.0)
  {
  }

  lemma ApplyMinuteKeys(r: Resources, p: Proc, m: Message)
    requires MinuteKeys(p.minutes)
    ensures MinuteKeys(Apply(p, EffectOf(r, m)).minutes)
  {
    var e := EffectOf(r, m);
    forall k | k in Apply(p, e).minutes ensures exists minute: nat, ns :: k == MinuteKey(minute, ns) {
      AddAllKeys(AddIncs, p.minutes, e.minutes, k);
    }
  }

  lemma ApplyQuantKeys(r: Resources, p: Proc, m: Message)
    requires QuantKeys(p.quants)
    ensures QuantKeys(Apply(p, EffectOf(r, m)).quants)
  {
    var e := EffectOf(r, m);
    forall k | k in Apply(p, e).quants ensures exists kind, quant: nat, ns :: k == QuantKey(kind, quant, ns) {
      AddAllKeys(AddCounts, p.quants, e.quants, k);
      if k !in p.quants {
        var i :| 0 <= i < |e.quants| && e.quants[i].0 == k;
        var s := ShareOf(r, m).value;
        EachQuantKeys(r, s.spaces[0], s.incs.metrics, 0, i);
      }
    }
  }

  lemma ApplyHistogramKeys(r: Resources, p: Proc, m: Message)
    requires HistogramKeys(p.histograms)
    ensures HistogramKeys(Apply(p, EffectOf(r, m)).histograms)
  {
    var e := EffectOf(r, m);
    forall k | k in Apply(p, e).histograms
      ensures exists minute: nat, resource, ns :: HyphenFree(resource) && k == HistogramKey(minute, resource, ns)
    {
      AddAllKeys(AddCounts, p.histograms, e.histograms, k);
      if k !in p.histograms {
        ShareResource(r, m);
      }
    }
  }

  lemma ApplyKeyed(r: Resources, p: Proc, m: Message)
    requires Keyed(p)
    ensures Keyed(Apply(p, EffectOf(r, m)))
  {
    ApplyMinuteKeys(r, p, m);
    ApplyQuantKeys(r, p, m);
    ApplyHistogramKeys(r, p, m);
    AddAllKeeps(AddAgent, p.agents, AgentsOf(m), (a: Agent) => |a.reasons| == NUM_REASONS);
  }

  /** The updaters can decode every key of every table; merged tables are folds, too. */
  lemma {:induction false} FoldKeyed(r: Resources, ins: seq<Input>)
    ensures forall db :: db in Fold(r, ins) ==> Keyed(Fold(r, ins)[db])
  {
    if ins != [] {
      var n := |ins| - 1;
      FoldKeyed(r, ins[..n]);
      var t := Fold(r, ins[..n]);
      ApplyKeyed(r, if ins[n].db in t then t[ins[n].db] else EMPTY_PROC, ins[n].msg);
    }
  }
}
