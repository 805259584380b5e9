/**
 * What the stats updaters write: every number in the database is a cell (a
 * document and one of its fields) that `$inc` adds to or `$max` raises.
 * Merging tables before writing them is the same as writing them one by one,
 * unless a metric changes its sign on the way.
 */
module Cells {
  import opened Options
  import opened Merging
  import opened KeyCodec
  import opened Increments
  import opened ProcessorModel

  /** A document, by its selector. */
  datatype Doc =
    | TotalsDoc(db: string, page: string)
    | MinutesDoc(db: string, page: string, minute: nat)
    | QuantsDoc(db: string, page: string, kind: char, quant: nat)
    | HeatmapDoc(db: string, page: string, minute: nat)
    | AgentsDoc(db: string, agent: string)

  datatype Field =
    | RequestCount | PageCount | AjaxCount | FrontendCount
    | Val(i: nat) | ValSquared(i: nat) | ValMax(i: nat)
    | Other(tag: Tag)
    | QuantOf(i: nat)
    | Bucket(resource: string, i: nat)
    | AgentBackend | AgentFrontend | AgentDropped | AgentReason(i: nat)

  datatype Cell = Cell(doc: Doc, field: Field)

  function Add(a: real, b: real): (c: real) { a + b }

  /** `$max` for the maxima, `$inc` for everything else. */
  function OpOf(f: Field): (op: (real, real) -> real) {
    if f.ValMax? then Max else Add
  }

  lemma OpLaws(f: Field)
    ensures Commutes(OpOf(f)) && Associates(OpOf(f))
  {
  }

  lemma JoinAssociates(f: Field, a: Option<real>, b: Option<real>, c: Option<real>)
    ensures Join(OpOf(f), Join(OpOf(f), a, b), c) == Join(OpOf(f), a, Join(OpOf(f), b, c))
    ensures Join(OpOf(f), a, b) == Join(OpOf(f), b, a)
  {
    OpLaws(f);
  }

  // ----- what one record writes

  function NonZero(n: int): (v: Option<real>) { if n != 0 then Some(n as real) else None }

  function Positive(counts: seq<int>, i: nat): (v: Option<real>) {
    if i < |counts| && counts[i] > 0 then Some(counts[i] as real) else None
  }

  /** A metric is written only if its sum is positive. */
  function Written(m: Metric, v: real): (w: Option<real>) { if m.val > 0.0 then Some(v) else None }

  /** The fields increments_to_bson puts into `$inc` and `$max`. */
  function IncsCell(incs: Incs, f: Field): (v: Option<real>) {
    match f
    case RequestCount => NonZero(incs.backend)
    case PageCount => NonZero(incs.page)
    case AjaxCount => NonZero(incs.ajax)
    case FrontendCount => NonZero(incs.page + incs.ajax)
    case Val(i) => if i < |incs.metrics| then Written(incs.metrics[i], incs.metrics[i].val) else None
    case ValSquared(i) => if i < |incs.metrics| then Written(incs.metrics[i], incs.metrics[i].valSquared) else None
    case ValMax(i) => if i < |incs.metrics| then Written(incs.metrics[i], incs.metrics[i].valMax) else None
    case Other(tag) => if tag in incs.others then Some(incs.others[tag] as real) else None
    case _ => None
  }

  function AgentCell(a: Agent, f: Field): (v: Option<real>) {
    match f
    case AgentBackend => Some(a.backend as real)
    case AgentFrontend => Some(a.frontend as real)
    case AgentDropped => Some(a.dropped as real)
    case AgentReason(i) => if i > 0 then Positive(a.reasons, i) else None
    case _ => None
  }

  function IncsOption(o: Option<Incs>, f: Field): (v: Option<real>) {
    if o.Some? then IncsCell(o.value, f) else None
  }

  function CountsOption(o: Option<seq<int>>, i: nat): (v: Option<real>) {
    if o.Some? then Positive(o.value, i) else None
  }

  function AgentOption(o: Option<Agent>, f: Field): (v: Option<real>) {
    if o.Some? then AgentCell(o.value, f) else None
  }

  function ProcCell(p: Proc, doc: Doc, f: Field): (v: Option<real>) {
    match doc
    case TotalsDoc(_, page) => IncsOption(At(p.totals, page), f)
    case MinutesDoc(_, page, minute) => IncsOption(At(p.minutes, MinuteKey(minute, page)), f)
    case QuantsDoc(_, page, kind, quant) =>
      if f.QuantOf? then CountsOption(At(p.quants, QuantKey(kind, quant, page)), f.i) else None
    case HeatmapDoc(_, page, minute) =>
      if f.Bucket? && HyphenFree(f.resource)
      then CountsOption(At(p.histograms, HistogramKey(minute, f.resource, page)), f.i) else None
    case AgentsDoc(_, agent) => AgentOption(At(p.agents, agent), f)
  }

  /** What writing a whole table writes to a cell. */
  function TableCell(t: Table, c: Cell): (v: Option<real>) {
    if c.doc.db in t then ProcCell(t[c.doc.db], c.doc, c.field) else None
  }

  // ----- the record and the metric behind a cell

  function IncsAt(t: Table, doc: Doc): (incs: Option<Incs>) {
    if doc.db !in t then None
    else match doc
      case TotalsDoc(db, page) => At(t[db].totals, page)
      case MinutesDoc(db, page, minute) => At(t[db].minutes, MinuteKey(minute, page))
      case _ => None
  }

  function MetricAt(t: Table, doc: Doc, i: nat): (m: Option<Metric>) {
    var incs := IncsAt(t, doc);
    if incs.Some? && i < |incs.value.metrics| then Some(incs.value.metrics[i]) else None
  }

  /** The sum a table holds for a metric; nothing stored counts as zero. */
  function ValAt(t: Table, doc: Doc, i: nat): (v: real) {
    var m := MetricAt(t, doc, i);
    if m.Some? then m.value.val else 0.0
  }

  lemma IncsAtMerges(a: Table, b: Table, doc: Doc)
    ensures IncsAt(MergeTables(a, b), doc) == Join(AddIncs, IncsAt(a, doc), IncsAt(b, doc))
  {
    var c := MergeTables(a, b);
    assert At(c, doc.db) == Join(MergeProc, At(a, doc.db), At(b, doc.db));
  }

  lemma MetricAtMerges(a: Table, b: Table, doc: Doc, i: nat)
    ensures MetricAt(MergeTables(a, b), doc, i) == Join(AddMetric, MetricAt(a, doc, i), MetricAt(b, doc, i))
    ensures ValAt(MergeTables(a, b), doc, i) == ValAt(a, doc, i) + ValAt(b, doc, i)
  {
    IncsAtMerges(a, b, doc);
  }

  // ----- tables hold no negative counts

  predicate SoundIncs(i: Incs) { i.backend >= 0 && i.page >= 0 && i.ajax >= 0 }

  predicate SoundCounts(c: seq<int>) { forall i :: 0 <= i < |c| ==> c[i] >= 0 }

  predicate SoundAgent(a: Agent) { SoundCounts(a.reasons) }

  ghost predicate SoundProc(p: Proc) {
    && AllValues(p.totals, SoundIncs) && AllValues(p.minutes, SoundIncs)
    && AllValues(p.quants, SoundCounts) && AllValues(p.histograms, SoundCounts)
    && AllValues(p.agents, SoundAgent)
  }

  ghost predicate Sound(t: Table) {
    forall db :: db in t ==> SoundProc(t[db])
  }

  lemma EachSound(spaces: seq<string>, minute: nat, incs: Incs, resource: string, time: real)
    requires SoundIncs(incs)
    ensures forall i :: 0 <= i < |EachTotal(spaces, incs)| ==> SoundIncs(EachTotal(spaces, incs)[i].1)
    ensures forall i :: 0 <= i < |EachMinute(spaces, minute, incs)| ==> SoundIncs(EachMinute(spaces, minute, incs)[i].1)
    ensures forall i :: 0 <= i < |EachHistogram(spaces, minute, resource, time)| ==>
              SoundCounts(EachHistogram(spaces, minute, resource, time)[i].1)
  {
  }

  lemma {:induction false} QuantsSound(r: Resources, page: string, metrics: seq<Metric>, k: nat)
    requires k <= |metrics|
    ensures forall i :: 0 <= i < |EachQuant(r, page, metrics, k)| ==> SoundCounts(EachQuant(r, page, metrics, k)[i].1)
    decreases |metrics| - k
  {
    if k < |metrics| {
      QuantsSound(r, page, metrics, k + 1);
    }
  }

  ghost predicate SoundEffect(e: Effect) {
    && (forall i :: 0 <= i < |e.totals| ==> SoundIncs(e.totals[i].1))
    && (forall i :: 0 <= i < |e.minutes| ==> SoundIncs(e.minutes[i].1))
    && (forall i :: 0 <= i < |e.quants| ==> SoundCounts(e.quants[i].1))
    && (forall i :: 0 <= i < |e.histograms| ==> SoundCounts(e.histograms[i].1))
    && (forall i :: 0 <= i < |e.agents| ==> SoundAgent(e.agents[i].1))
  }

  lemma ShareSound(r: Resources, m: Message)
    requires ShareOf(r, m).Some?
    ensures SoundIncs(ShareOf(r, m).value.incs)
  {
  }

  lemma EffectSound(r: Resources, m: Message)
    ensures SoundEffect(EffectOf(r, m))
  {
    match ShareOf(r, m)
    case None =>
    case Some(s) =>
      ShareSound(r, m);
      var (name, t) := if s.timed.Some? then s.timed.value else ("", 0.0);
      EachSound(s.spaces, s.minute, s.incs, name, t);
      if s.spaces != [] { QuantsSound(r, s.spaces[0], s.incs.metrics, 0); }
  }

  lemma ApplySound(p: Proc, e: Effect)
    requires SoundProc(p) && SoundEffect(e)
    ensures SoundProc(Apply(p, e))
  {
    AddAllKeeps(AddIncs, p.totals, e.totals, SoundIncs);
    AddAllKeeps(AddIncs, p.minutes, e.minutes, SoundIncs);
    AddAllKeeps(AddCounts, p.quants, e.quants, SoundCounts);
    AddAllKeeps(AddCounts, p.histograms, e.histograms, SoundCounts);
    AddAllKeeps(AddAgent, p.agents, e.agents, SoundAgent);
  }

  lemma {:induction false} FoldSound(r: Resources, ins: seq<Input>)
    ensures Sound(Fold(r, ins))
  {
    if ins != [] {
      var n := |ins| - 1;
      FoldSound(r, ins[..n]);
      var t := Fold(r, ins[..n]);
      EffectSound(r, ins[n].msg);
      ApplySound(if ins[n].db in t then t[ins[n].db] else EMPTY_PROC, EffectOf(r, ins[n].msg));
    }
  }

  // ----- merging before writing

  /** A metric whose values never were negative. */
  predicate NonNegative(m: Metric) {
    m.val >= 0.0 && m.valSquared >= 0.0 && m.valMax >= 0.0 && (m.val == 0.0 ==> m.valSquared == 0.0 && m.valMax == 0.0)
  }

  predicate NonPositive(m: Metric) { m.val <= 0.0 }

  ghost predicate MetricIs(t: Table, c: Cell, sign: Metric -> bool) {
    IsMetric(c.field) && MetricAt(t, c.doc, c.field.i).Some? ==>
      sign(MetricAt(t, c.doc, c.field.i).value)
  }

  /** Both tables agree on the sign of the metric behind a cell. */
  ghost predicate SameSign(a: Table, b: Table, c: Cell) {
    || (MetricIs(a, c, NonNegative) && MetricIs(b, c, NonNegative))
    || (MetricIs(a, c, NonPositive) && MetricIs(b, c, NonPositive))
  }

  lemma SignMerges(a: Table, b: Table, c: Cell, sign: Metric -> bool)
    requires forall x, y :: sign(x) && sign(y) ==> sign(AddMetric(x, y))
    requires MetricIs(a, c, sign) && MetricIs(b, c, sign)
    ensures MetricIs(MergeTables(a, b), c, sign)
  {
    if IsMetric(c.field) {
      MetricAtMerges(a, b, c.doc, c.field.i);
    }
  }

  lemma MetricIsMerges(a: Table, b: Table, c: Cell)
    ensures MetricIs(a, c, NonNegative) && MetricIs(b, c, NonNegative) ==> MetricIs(MergeTables(a, b), c, NonNegative)
    ensures MetricIs(a, c, NonPositive) && MetricIs(b, c, NonPositive) ==> MetricIs(MergeTables(a, b), c, NonPositive)
  {
    if MetricIs(a, c, NonNegative) && MetricIs(b, c, NonNegative) { SignMerges(a, b, c, NonNegative); }
    if MetricIs(a, c, NonPositive) && MetricIs(b, c, NonPositive) { SignMerges(a, b, c, NonPositive); }
  }

  predicate IsMetric(f: Field) { f.Val? || f.ValSquared? || f.ValMax? }

  predicate SignsAgree(x: Incs, y: Incs, f: Field) {
    IsMetric(f) && f.i < |x.metrics| && f.i < |y.metrics| ==>
      || (NonNegative(x.metrics[f.i]) && NonNegative(y.metrics[f.i]))
      || (NonPositive(x.metrics[f.i]) && NonPositive(y.metrics[f.i]))
  }

  lemma ZeroMetric(x: Metric, y: Metric)
    requires NonNegative(x) && NonNegative(y) && x.val <= 0.0
    ensures AddMetric(x, y) == AddMetric(y, x) == y
  {
  }

  /** For each part of a metric, with the operation that combines it. */
  lemma WrittenMerges(x: Metric, y: Metric, part: Metric -> real, op: (real, real) -> real)
    requires (NonNegative(x) && NonNegative(y)) || (NonPositive(x) && NonPositive(y))
    requires part(AddMetric(x, y)) == op(part(x), part(y))
    ensures Written(AddMetric(x, y), part(AddMetric(x, y))) == Join(op, Written(x, part(x)), Written(y, part(y)))
  {
    if NonNegative(x) && NonNegative(y) {
      if x.val <= 0.0 { ZeroMetric(x, y); }
      if y.val <= 0.0 { ZeroMetric(y, x); }
    }
  }

  lemma IncsCellMerges(x: Incs, y: Incs, f: Field)
    requires SoundIncs(x) && SoundIncs(y) && SignsAgree(x, y, f)
    ensures IncsCell(AddIncs(x, y), f) == Join(OpOf(f), IncsCell(x, f), IncsCell(y, f))
  {
    if f.Other? {
      assert At(AddIncs(x, y).others, f.tag) == Join(Plus, At(x.others, f.tag), At(y.others, f.tag));
    } else if IsMetric(f) {
      if f.i < |x.metrics| && f.i < |y.metrics| {
        var part := if f.Val? then (m: Metric) => m.val
                    else if f.ValSquared? then (m: Metric) => m.valSquared
                    else (m: Metric) => m.valMax;
        WrittenMerges(x.metrics[f.i], y.metrics[f.i], part, OpOf(f));
      }
    }
  }

  lemma IncsOptionMerges(a: map<string, Incs>, b: map<string, Incs>, k: string, f: Field)
    requires AllValues(a, SoundIncs) && AllValues(b, SoundIncs)
    requires k in a && k in b ==> SignsAgree(a[k], b[k], f)
    ensures IncsOption(At(Merge(AddIncs, a, b), k), f) ==
            Join(OpOf(f), IncsOption(At(a, k), f), IncsOption(At(b, k), f))
  {
    assert At(Merge(AddIncs, a, b), k) == Join(AddIncs, At(a, k), At(b, k));
    if k in a && k in b { IncsCellMerges(a[k], b[k], f); }
  }

  lemma PositiveMerges(x: seq<int>, y: seq<int>, i: nat)
    requires SoundCounts(x) && SoundCounts(y)
    ensures Positive(AddCounts(x, y), i) == Join(Add, Positive(x, i), Positive(y, i))
  {
  }

  lemma CountsOptionMerges(a: map<string, seq<int>>, b: map<string, seq<int>>, k: string, i: nat)
    requires AllValues(a, SoundCounts) && AllValues(b, SoundCounts)
    ensures CountsOption(At(Merge(AddCounts, a, b), k), i) ==
            Join(Add, CountsOption(At(a, k), i), CountsOption(At(b, k), i))
  {
    assert At(Merge(AddCounts, a, b), k) == Join(AddCounts, At(a, k), At(b, k));
    if k in a && k in b { PositiveMerges(a[k], b[k], i); }
  }

  lemma AgentOptionMerges(a: map<string, Agent>, b: map<string, Agent>, k: string, f: Field)
    requires AllValues(a, SoundAgent) && AllValues(b, SoundAgent)
    ensures AgentOption(At(Merge(AddAgent, a, b), k), f) ==
            Join(OpOf(f), AgentOption(At(a, k), f), AgentOption(At(b, k), f))
  {
    assert At(Merge(AddAgent, a, b), k) == Join(AddAgent, At(a, k), At(b, k));
    if k in a && k in b && f.AgentReason? { PositiveMerges(a[k].reasons, b[k].reasons, f.i); }
  }

  /** The records of two processors behind a document have metrics of the same sign. */
  ghost predicate ProcSignsAgree(p: Proc, q: Proc, doc: Doc, f: Field) {
    && (doc.TotalsDoc? && doc.page in p.totals && doc.page in q.totals ==>
          SignsAgree(p.totals[doc.page], q.totals[doc.page], f))
    && (doc.MinutesDoc? ==>
          var key := MinuteKey(doc.minute, doc.page);
          key in p.minutes && key in q.minutes ==> SignsAgree(p.minutes[key], q.minutes[key], f))
  }

  lemma ProcCellMerges(p: Proc, q: Proc, doc: Doc, f: Field)
    requires SoundProc(p) && SoundProc(q) && ProcSignsAgree(p, q, doc, f)
    ensures ProcCell(MergeProc(p, q), doc, f) == Join(OpOf(f), ProcCell(p, doc, f), ProcCell(q, doc, f))
  {
    match doc
    case TotalsDoc(_, page) => IncsOptionMerges(p.totals, q.totals, page, f);
    case MinutesDoc(_, page, minute) => IncsOptionMerges(p.minutes, q.minutes, MinuteKey(minute, page), f);
    case QuantsDoc(_, page, kind, quant) =>
      if f.QuantOf? { CountsOptionMerges(p.quants, q.quants, QuantKey(kind, quant, page), f.i); }
    case HeatmapDoc(_, page, minute) =>
      if f.Bucket? && HyphenFree(f.resource) {
        CountsOptionMerges(p.histograms, q.histograms, HistogramKey(minute, f.resource, page), f.i);
      }
    case AgentsDoc(_, agent) => AgentOptionMerges(p.agents, q.agents, agent, f);
  }

  /** Writing a merged table is writing both tables, as long as no metric changes its sign. */
  lemma CellMerges(a: Table, b: Table, c: Cell)
    requires Sound(a) && Sound(b) && SameSign(a, b, c)
    ensures TableCell(MergeTables(a, b), c) == Join(OpOf(c.field), TableCell(a, c), TableCell(b, c))
  {
    var db := c.doc.db;
    assert At(MergeTables(a, b), db) == Join(MergeProc, At(a, db), At(b, db));
    if db in a && db in b {
      SignsOfProcs(a, b, c);
      ProcCellMerges(a[db], b[db], c.doc, c.field);
    }
  }

  lemma SignsOfProcs(a: Table, b: Table, c: Cell)
    requires SameSign(a, b, c) && c.doc.db in a && c.doc.db in b
    ensures ProcSignsAgree(a[c.doc.db], b[c.doc.db], c.doc, c.field)
  {
  }
}
