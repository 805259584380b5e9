/**
 * Writing forwarded tables one after the other, in any grouping, leaves the
 * database cells that one sequential table written once would leave: exactly
 * when no metric of a document takes both a positive and a negative value.
 */
module Writes {
  import opened Options
  import opened Merging
  import opened Increments
  import opened ProcessorModel
  import opened Cells
  import opened Singles

  /** The value of a cell after all batches have been written to an empty database. */
  function WrittenBy(batches: seq<Table>, c: Cell): (v: Option<real>) {
    if batches == [] then None
    else Join(OpOf(c.field), WrittenBy(batches[..|batches|-1], c), TableCell(batches[|batches|-1], c))
  }

  function Concat(parts: seq<seq<Input>>): (ins: seq<Input>) {
    if parts == [] then [] else Concat(parts[..|parts|-1]) + parts[|parts|-1]
  }

  function Folds(r: Resources, parts: seq<seq<Input>>): (ts: seq<Table>)
    ensures |ts| == |parts| && forall i :: 0 <= i < |parts| ==> ts[i] == Fold(r, parts[i])
  {
    seq(|parts|, i requires 0 <= i < |parts| => Fold(r, parts[i]))
  }

  /** The value one message adds to a metric of a document. */
  function ValOf(r: Resources, i: Input, doc: Doc, k: nat): (v: real) { ValAt(Fold(r, [i]), doc, k) }

  ghost predicate AllNonNegative(r: Resources, ins: seq<Input>, doc: Doc, k: nat) {
    forall j :: 0 <= j < |ins| ==> ValOf(r, ins[j], doc, k) >= 0.0
  }

  ghost predicate AllNonPositive(r: Resources, ins: seq<Input>, doc: Doc, k: nat) {
    forall j :: 0 <= j < |ins| ==> ValOf(r, ins[j], doc, k) <= 0.0
  }

  /** Every metric of every document takes values of one sign only. */
  ghost predicate NoMixedSigns(r: Resources, ins: seq<Input>) {
    forall doc, k: nat :: AllNonNegative(r, ins, doc, k) || AllNonPositive(r, ins, doc, k)
  }

  /** The same for one cell; only metrics have a sign to mix. */
  ghost predicate OneSign(r: Resources, ins: seq<Input>, c: Cell) {
    IsMetric(c.field) ==>
      AllNonNegative(r, ins, c.doc, c.field.i) || AllNonPositive(r, ins, c.doc, c.field.i)
  }

  // ----- signs

  predicate Plain(m: Metric) { m.valSquared == m.val * m.val && m.valMax == m.val }

  lemma PlainSigns(m: Metric)
    requires Plain(m) && m.val >= 0.0
    ensures NonNegative(m)
  {
  }

  lemma SharePlain(r: Resources, m: Message, k: nat)
    requires ShareOf(r, m).Some? && k < |ShareOf(r, m).value.incs.metrics|
    ensures Plain(ShareOf(r, m).value.incs.metrics[k])
  {
    match m
    case Log(_, _, _, _, fields, _, _) => FilledPlain(r.names, LogFields(r, fields), k);
    case JsException(_, _, _, _) =>
    case FrontendPage(_, _, _, _, fields, _, _) => FilledPlain(r.names, FrontendFields(fields, "page_time"), k);
    case FrontendAjax(_, _, _, _, fields, _) => FilledPlain(r.names, FrontendFields(fields, "ajax_time"), k);
  }

  lemma FilledPlain(names: seq<string>, fields: map<string, real>, k: nat)
    requires k < |names|
    ensures Plain(Filled(names, fields)[k])
  {
  }

  lemma SinglePlain(r: Resources, i: Input, doc: Doc, k: nat)
    requires MetricAt(Fold(r, [i]), doc, k).Some?
    ensures Plain(MetricAt(Fold(r, [i]), doc, k).value)
  {
    SingleIsFold(r, i);
    match doc
    case TotalsDoc(_, page) =>
      SingleTotals(r, i.msg, page);
      SharePlain(r, i.msg, k);
    case MinutesDoc(_, page, minute) =>
      SingleMinutes(r, i.msg, minute, page);
      SharePlain(r, i.msg, k);
    case _ =>
  }

  lemma {:induction false} FoldSigns(r: Resources, ins: seq<Input>, c: Cell)
    requires IsMetric(c.field)
    ensures AllNonNegative(r, ins, c.doc, c.field.i) ==> MetricIs(Fold(r, ins), c, NonNegative)
    ensures AllNonPositive(r, ins, c.doc, c.field.i) ==> MetricIs(Fold(r, ins), c, NonPositive)
  {
    if ins != [] {
      var n := |ins| - 1;
      var x := ins[n];
      FoldSigns(r, ins[..n], c);
      ReceiveMerges(r, Fold(r, ins[..n]), x);
      MetricIsMerges(Fold(r, ins[..n]), Fold(r, [x]), c);
      var m := MetricAt(Fold(r, [x]), c.doc, c.field.i);
      if m.Some? {
        SinglePlain(r, x, c.doc, c.field.i);
        assert ValOf(r, x, c.doc, c.field.i) == m.value.val;
        if m.value.val >= 0.0 { PlainSigns(m.value); }
      }
    }
  }

  lemma PartsSameSign(r: Resources, a: seq<Input>, b: seq<Input>, c: Cell)
    requires OneSign(r, a + b, c)
    ensures SameSign(Fold(r, a), Fold(r, b), c)
    ensures OneSign(r, a, c)
  {
    if IsMetric(c.field) {
      assert forall j :: 0 <= j < |a| ==> a[j] == (a + b)[j];
      assert forall j :: 0 <= j < |b| ==> b[j] == (a + b)[|a| + j];
      FoldSigns(r, a, c);
      FoldSigns(r, b, c);
    }
  }

  /** Two batches write what they write together. */
  lemma PartsWrite(r: Resources, a: seq<Input>, b: seq<Input>, c: Cell)
    requires OneSign(r, a + b, c)
    ensures OneSign(r, a, c)
    ensures TableCell(Fold(r, a + b), c) == Join(OpOf(c.field), TableCell(Fold(r, a), c), TableCell(Fold(r, b), c))
  {
    PartsSameSign(r, a, b, c);
    FoldConcat(r, a, b);
    FoldSound(r, a);
    FoldSound(r, b);
    CellMerges(Fold(r, a), Fold(r, b), c);
  }

  lemma WrittenLast(r: Resources, parts: seq<seq<Input>>, c: Cell)
    requires parts != []
    ensures var n := |parts| - 1;
            WrittenBy(Folds(r, parts), c) ==
            Join(OpOf(c.field), WrittenBy(Folds(r, parts[..n]), c), TableCell(Fold(r, parts[n]), c))
  {
    var n := |parts| - 1;
    assert Folds(r, parts)[..n] == Folds(r, parts[..n]);
  }

  /** Any grouping of messages into batches writes what the sequential fold of all of them writes. */
  lemma {:induction false} WritesCompose(r: Resources, parts: seq<seq<Input>>, c: Cell)
    requires OneSign(r, Concat(parts), c)
    ensures WrittenBy(Folds(r, parts), c) == TableCell(Fold(r, Concat(parts)), c)
    decreases |parts|
  {
    if parts == [] {
      assert Fold(r, []) == map[];
    } else {
      var n := |parts| - 1;
      PartsWrite(r, Concat(parts[..n]), parts[n], c);
      WritesCompose(r, parts[..n], c);
      WrittenLast(r, parts, c);
    }
  }

  // ----- the condition is exact

  /** The messages with a positive value, and the others. */
  function Positives(ins: seq<Input>, val: Input -> real): (ps: (seq<Input>, seq<Input>)) {
    if ins == [] then ([], [])
    else
      var n := |ins| - 1;
      var (pos, rest) := Positives(ins[..n], val);
      if val(ins[n]) > 0.0 then (pos + [ins[n]], rest) else (pos, rest + [ins[n]])
  }

  lemma {:induction false} PositivesPermute(ins: seq<Input>, val: Input -> real)
    ensures var (pos, rest) := Positives(ins, val); multiset(pos + rest) == multiset(ins)
  {
    if ins != [] {
      var n := |ins| - 1;
      var x := ins[n];
      var (pos, rest) := Positives(ins[..n], val);
      PositivesPermute(ins[..n], val);
      OneMore(pos, rest, x);
      assert multiset(ins) == multiset(ins[..n]) + multiset{x} by { assert ins == ins[..n] + [x]; }
      assert Positives(ins, val) == if val(x) > 0.0 then (pos + [x], rest) else (pos, rest + [x]);
    }
  }

  lemma OneMore(a: seq<Input>, b: seq<Input>, x: Input)
    ensures multiset((a + [x]) + b) == multiset(a + (b + [x])) == multiset(a + b) + multiset{x}
  {
  }

  /** The values of all messages summed up. */
  function Sum(ins: seq<Input>, val: Input -> real): (v: real) {
    if ins == [] then 0.0 else Sum(ins[..|ins|-1], val) + val(ins[|ins|-1])
  }

  lemma SumSnoc(ins: seq<Input>, x: Input, val: Input -> real)
    ensures Sum(ins + [x], val) == Sum(ins, val) + val(x)
  {
    assert (ins + [x])[..|ins|] == ins;
  }

  lemma {:induction false} PositivesSplit(ins: seq<Input>, val: Input -> real)
    ensures var (pos, rest) := Positives(ins, val);
            && Sum(pos, val) >= 0.0 && Sum(rest, val) <= 0.0
            && ((exists j :: 0 <= j < |ins| && val(ins[j]) > 0.0) ==> Sum(pos, val) > 0.0)
            && ((exists j :: 0 <= j < |ins| && val(ins[j]) < 0.0) ==> Sum(rest, val) < 0.0)
  {
    if ins != [] {
      var n := |ins| - 1;
      var (pos, rest) := Positives(ins[..n], val);
      PositivesSplit(ins[..n], val);
      SumSnoc(pos, ins[n], val);
      SumSnoc(rest, ins[n], val);
    }
  }

  lemma {:induction false} FoldSums(r: Resources, ins: seq<Input>, doc: Doc, k: nat, val: Input -> real)
    requires forall i :: val(i) == ValOf(r, i, doc, k)
    ensures ValAt(Fold(r, ins), doc, k) == Sum(ins, val)
  {
    if ins != [] {
      var n := |ins| - 1;
      FoldSums(r, ins[..n], doc, k, val);
      SnocVal(r, ins[..n], ins[n], doc, k);
      assert ins == ins[..n] + [ins[n]];
    }
  }

  lemma SnocVal(r: Resources, ins: seq<Input>, x: Input, doc: Doc, k: nat)
    ensures ValAt(Fold(r, ins + [x]), doc, k) == ValAt(Fold(r, ins), doc, k) + ValOf(r, x, doc, k)
  {
    FoldConcat(r, ins, [x]);
    MetricAtMerges(Fold(r, ins), Fold(r, [x]), doc, k);
  }

  ghost predicate WritesAgree(r: Resources, ins: seq<Input>, xs: seq<Input>, ys: seq<Input>, c: Cell) {
    multiset(xs + ys) == multiset(ins) ==> WrittenBy([Fold(r, xs), Fold(r, ys)], c) == TableCell(Fold(r, ins), c)
  }

  lemma TwoBatches(a: Table, b: Table, c: Cell)
    ensures WrittenBy([a, b], c) == Join(OpOf(c.field), TableCell(a, c), TableCell(b, c))
  {
    assert [a, b][..1] == [a] && [a][..0] == [];
    assert WrittenBy([a], c) == TableCell(a, c);
  }

  lemma MixedSignsDiffer(r: Resources, ins: seq<Input>, doc: Doc, k: nat)
    requires !AllNonNegative(r, ins, doc, k) && !AllNonPositive(r, ins, doc, k)
    ensures exists xs, ys, c :: !WritesAgree(r, ins, xs, ys, c)
  {
    var val := (i: Input) => ValOf(r, i, doc, k);
    var (xs, ys) := Positives(ins, val);
    PositivesSplit(ins, val);
    PositivesPermute(ins, val);
    FoldSums(r, xs, doc, k, val);
    FoldSums(r, ys, doc, k, val);
    FoldPermutes(r, ins, xs + ys);
    FoldConcat(r, xs, ys);
    MetricAtMerges(Fold(r, xs), Fold(r, ys), doc, k);
    var c := Cell(doc, Val(k));
    TwoBatches(Fold(r, xs), Fold(r, ys), c);
    ValCell(Fold(r, xs), doc, k);
    ValCell(Fold(r, ys), doc, k);
    ValCell(Fold(r, ins), doc, k);
    assert !WritesAgree(r, ins, xs, ys, c);
  }

  lemma ValCell(t: Table, doc: Doc, k: nat)
    ensures ValAt(t, doc, k) > 0.0 ==> TableCell(t, Cell(doc, Val(k))) == Some(ValAt(t, doc, k))
    ensures ValAt(t, doc, k) < 0.0 ==> TableCell(t, Cell(doc, Val(k))) == None
    ensures TableCell(t, Cell(doc, Val(k))).Some? ==> TableCell(t, Cell(doc, Val(k))) == Some(ValAt(t, doc, k))
  {
  }

  /** Splitting the messages over two writes never shows in the database if and only if no metric mixes signs. */
  lemma SplitWritesAgreeExactly(r: Resources, ins: seq<Input>)
    ensures (forall xs, ys, c :: WritesAgree(r, ins, xs, ys, c)) <==> NoMixedSigns(r, ins)
  {
    if NoMixedSigns(r, ins) {
      forall xs, ys, c ensures WritesAgree(r, ins, xs, ys, c) {
        if multiset(xs + ys) == multiset(ins) { SplitAgrees(r, ins, xs, ys, c); }
      }
    } else {
      var doc, k: nat :| !AllNonNegative(r, ins, doc, k) && !AllNonPositive(r, ins, doc, k);
      MixedSignsDiffer(r, ins, doc, k);
    }
  }

  lemma SplitAgrees(r: Resources, ins: seq<Input>, xs: seq<Input>, ys: seq<Input>, c: Cell)
    requires NoMixedSigns(r, ins) && multiset(xs + ys) == multiset(ins)
    ensures WritesAgree(r, ins, xs, ys, c)
  {
    PermutedSign(r, ins, xs + ys, c);
    FoldPermutes(r, ins, xs + ys);
    PartsWrite(r, xs, ys, c);
    TwoBatches(Fold(r, xs), Fold(r, ys), c);
  }

  lemma PermutedSign(r: Resources, a: seq<Input>, b: seq<Input>, c: Cell)
    requires OneSign(r, a, c) && multiset(b) <= multiset(a)
    ensures OneSign(r, b, c)
  {
    forall j | 0 <= j < |b| ensures b[j] in a {
      assert b[j] in multiset(b) && multiset(b)[b[j]] <= multiset(a)[b[j]];
    }
  }

  // ----- signs do get mixed

  function OtherTime(r: Resources, fields: map<string, real>): (t: real) {
    var t := TimeOf(fields, "total_time");
    t - SumOf(fields["total_time" := t], r.otherTimes)
  }

  /** The value a request adds to its other_time. */
  lemma OtherTimeVal(r: Resources, i: Input, k: nat)
    requires i.msg.Log? && !i.msg.ignored && k < |r.names| && r.names[k] == "other_time"
    ensures ValOf(r, i, TotalsDoc(i.db, ALL_PAGES), k) == OtherTime(r, i.msg.fields)
  {
    SingleIsFold(r, i);
    SingleTotals(r, i.msg, ALL_PAGES);
    AllPagesOfLog(r, i.msg);
    OtherTimeField(r, i.msg.fields);
  }

  lemma AllPagesOfLog(r: Resources, m: Message)
    requires m.Log? && !m.ignored
    ensures ALL_PAGES in LogShare(r, m).value.spaces
    ensures LogShare(r, m).value.incs.metrics == Filled(r.names, LogFields(r, m.fields))
  {
    assert LogShare(r, m).value.spaces[2] == ALL_PAGES;
  }

  lemma OtherTimeField(r: Resources, fields: map<string, real>)
    ensures var f := LogFields(r, fields); "other_time" in f && f["other_time"] == OtherTime(r, fields)
  {
    assert "allocated_memory"[0] != "other_time"[0];
  }

  /**
   * Two requests mix signs whenever the parts of one add up to more than its total time, and those of
   * the other to less.
   */
  lemma OtherTimeMixes(r: Resources, ins: seq<Input>, a: nat, b: nat, k: nat)
    requires a < |ins| && b < |ins| && ins[a].db == ins[b].db
    requires ins[a].msg.Log? && !ins[a].msg.ignored && ins[b].msg.Log? && !ins[b].msg.ignored
    requires k < |r.names| && r.names[k] == "other_time"
    requires OtherTime(r, ins[a].msg.fields) < 0.0 < OtherTime(r, ins[b].msg.fields)
    ensures !NoMixedSigns(r, ins)
  {
    OtherTimeVal(r, ins[a], k);
    OtherTimeVal(r, ins[b], k);
    var doc := TotalsDoc(ins[a].db, ALL_PAGES);
    assert !AllNonNegative(r, ins, doc, k) && !AllNonPositive(r, ins, doc, k);
  }

  const SAMPLE_RESOURCES :=
    Resources(["total_time", "db_time", "other_time", "page_time", "ajax_time"], 2, 2, 4, -1, -1, 0, 3, 4, ["db_time"])

  function SampleRequest(dbTime: real): (m: Message) {
    Log(false, Some("Users#show"), None, 0, map["total_time" := 10.0, "db_time" := dbTime], {}, None)
  }

  /** Two requests of 10 ms, one of which reports 30 ms in the database: their other_time is -20 ms and 10 ms. */
  lemma SignsGetMixed(db: string)
    ensures ValidResources(SAMPLE_RESOURCES)
    ensures !NoMixedSigns(SAMPLE_RESOURCES, [Input(db, SampleRequest(30.0)), Input(db, SampleRequest(0.0))])
  {
    SampleOtherTime(30.0);
    SampleOtherTime(0.0);
    OtherTimeMixes(SAMPLE_RESOURCES, [Input(db, SampleRequest(30.0)), Input(db, SampleRequest(0.0))], 0, 1, 2);
  }

  lemma SampleOtherTime(dbTime: real)
    ensures OtherTime(SAMPLE_RESOURCES, SampleRequest(dbTime).fields) == 10.0 - dbTime
  {
    assert "db_time"[0] != "total_time"[0];
    var fields := SampleRequest(dbTime).fields["total_time" := 10.0];
    assert "db_time" in fields && fields["db_time"] == dbTime;
    assert ["db_time"][1..] == [];
    assert SumOf(fields, ["db_time"]) == dbTime;
  }
}
