/** Every task whose keys can be decoded has only finitely many cells, so that a database with them written exists. */
module TaskCells {
  import opened Options
  import opened Merging
  import opened KeyCodec
  import opened Increments
  import opened ProcessorModel
  import opened Cells
  import opened Pipeline
  import opened Importer

  // ----- writing finitely many cells

  function Put(db: Database, c: Cell, v: real): (db': Database) {
    var stored: map<Field, real> := if c.doc in db then db[c.doc] else map[];
    db[c.doc := stored[c.field := v]]
  }

  lemma PutCell(db: Database, c: Cell, v: real, x: Cell)
    ensures DbCell(Put(db, c, v), x) == if x == c then Some(v) else DbCell(db, x)
  {
  }

  lemma {:induction false} WriteCells(db0: Database, cells: set<Cell>, t: Table) returns (db: Database)
    ensures forall x: Cell ::
              DbCell(db, x) ==
              if x in cells then Join(OpOf(x.field), DbCell(db0, x), TableCell(t, x)) else DbCell(db0, x)
    decreases |cells|
  {
    db := db0;
    if cells != {} {
      var c :| c in cells;
      db := WriteCells(db0, cells - {c}, t);
      var v := Join(OpOf(c.field), DbCell(db0, c), TableCell(t, c));
      if v.Some? {
        forall x: Cell ensures DbCell(Put(db, c, v.value), x) == if x == c then v else DbCell(db, x) {
          PutCell(db, c, v.value, x);
        }
        db := Put(db, c, v.value);
      }
    }
  }

  // ----- the cells of a task

  function IncsFields(incs: Incs): (fs: set<Field>) {
    {RequestCount, PageCount, AjaxCount, FrontendCount}
    + (set i | 0 <= i < |incs.metrics| :: Val(i))
    + (set i | 0 <= i < |incs.metrics| :: ValSquared(i))
    + (set i | 0 <= i < |incs.metrics| :: ValMax(i))
    + (set tag | tag in incs.others :: Other(tag))
  }

  lemma IncsFieldsCover(incs: Incs, f: Field)
    requires IncsCell(incs, f).Some?
    ensures f in IncsFields(incs)
  {
  }

  function AgentFields(a: Agent): (fs: set<Field>) {
    {AgentBackend, AgentFrontend, AgentDropped} + (set i | 0 <= i < |a.reasons| :: AgentReason(i))
  }

  lemma AgentFieldsCover(a: Agent, f: Field)
    requires AgentCell(a, f).Some?
    ensures f in AgentFields(a)
  {
  }

  ghost function MinuteDocOf(name: string, key: string): (doc: Doc) {
    if minute: nat, ns :| key == MinuteKey(minute, ns) then MinutesDoc(name, ns, minute) else TotalsDoc(name, key)
  }

  ghost function QuantDocOf(name: string, key: string): (doc: Doc) {
    if kind, quant: nat, ns :| key == QuantKey(kind, quant, ns) then QuantsDoc(name, ns, kind, quant)
    else TotalsDoc(name, key)
  }

  ghost function BucketOf(name: string, key: string, i: nat): (c: Cell) {
    if minute: nat, resource, ns :| HyphenFree(resource) && key == HistogramKey(minute, resource, ns)
    then Cell(HeatmapDoc(name, ns, minute), Bucket(resource, i))
    else Cell(TotalsDoc(name, key), RequestCount)
  }

  ghost function CellsOf(job: Job): (cells: set<Cell>) {
    match job
    case Totals(name, m) => set k, f | k in m && f in IncsFields(m[k]) :: Cell(TotalsDoc(name, k), f)
    case Minutes(name, m) => set k, f | k in m && f in IncsFields(m[k]) :: Cell(MinuteDocOf(name, k), f)
    case Quants(name, m) => set k, i | k in m && 0 <= i < |m[k]| :: Cell(QuantDocOf(name, k), QuantOf(i))
    case Histograms(name, m) => set k, i | k in m && 0 <= i < |m[k]| :: BucketOf(name, k, i)
    case Agents(name, m) => set k, f | k in m && f in AgentFields(m[k]) :: Cell(AgentsDoc(name, k), f)
  }

  lemma MinuteDoc(name: string, minute: nat, ns: string)
    ensures MinuteDocOf(name, MinuteKey(minute, ns)) == MinutesDoc(name, ns, minute)
  {
    var key := MinuteKey(minute, ns);
    var m: nat, n :| key == MinuteKey(m, n) && MinuteDocOf(name, key) == MinutesDoc(name, n, m);
    MinuteKeyInjective(minute, ns, m, n);
  }

  lemma QuantDoc(name: string, kind: char, quant: nat, ns: string)
    ensures QuantDocOf(name, QuantKey(kind, quant, ns)) == QuantsDoc(name, ns, kind, quant)
  {
    var key := QuantKey(kind, quant, ns);
    var k, q: nat, n :| key == QuantKey(k, q, n) && QuantDocOf(name, key) == QuantsDoc(name, n, k, q);
    QuantKeyInjective(kind, quant, ns, k, q, n);
  }

  lemma BucketCell(name: string, minute: nat, resource: string, ns: string, i: nat)
    requires HyphenFree(resource)
    ensures BucketOf(name, HistogramKey(minute, resource, ns), i) ==
            Cell(HeatmapDoc(name, ns, minute), Bucket(resource, i))
  {
    var key := HistogramKey(minute, resource, ns);
    var m: nat, r, n :| HyphenFree(r) && key == HistogramKey(m, r, n)
                        && BucketOf(name, key, i) == Cell(HeatmapDoc(name, n, m), Bucket(r, i));
    HistogramKeyInjective(minute, resource, ns, m, r, n);
  }

  /** No other cells are written. */
  lemma CellsCover(job: Job, c: Cell)
    requires TableCell(TableOf(job), c).Some?
    ensures c in CellsOf(job)
  {
    match job
    case Totals(name, m) => IncsFieldsCover(m[c.doc.page], c.field);
    case Minutes(name, m) =>
      MinuteDoc(name, c.doc.minute, c.doc.page);
      IncsFieldsCover(m[MinuteKey(c.doc.minute, c.doc.page)], c.field);
    case Quants(name, m) => QuantDoc(name, c.doc.kind, c.doc.quant, c.doc.page);
    case Histograms(name, m) => BucketCell(name, c.doc.minute, c.field.resource, c.doc.page, c.field.i);
    case Agents(name, m) => AgentFieldsCover(m[c.doc.agent], c.field);
  }

  /** Every task can be written to every database. */
  lemma WriteExists(db0: Database, t: Table) returns (db: Database)
    requires Writable(t)
    ensures Wrote(db0, db, t)
  {
    var job :| TableOf(job) == t && Decodable(job);
    db := WriteCells(db0, CellsOf(job), t);
    forall c: Cell ensures DbCell(db, c) == Join(OpOf(c.field), DbCell(db0, c), TableCell(t, c)) {
      if TableCell(t, c).Some? { CellsCover(job, c); }
    }
  }
}
