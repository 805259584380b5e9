/**
 * What the numbers in the database mean. After every settled run of the
 * importer each cell is a count, a sum or a maximum over the messages it has
 * parsed, in the words of `Messages`: whatever the interleaving, the merging
 * and the order of the updates, and with no reference to how tables, keys and
 * documents are built.
 */
module Meaning {
  import opened Options
  import opened Merging
  import opened Increments
  import opened ProcessorModel
  import opened Cells
  import opened Singles
  import opened Writes
  import opened Pipeline
  import opened PipelineProofs
  import opened Messages
  import opened Readings

  // ----- cells as folds over messages

  /** The amounts of all messages put together. */
  function Joined(op: (real, real) -> real, ins: seq<Input>, amount: Input -> Option<real>): (v: Option<real>) {
    if ins == [] then None
    else Join(op, Joined(op, ins[..|ins|-1], amount), amount(ins[|ins|-1]))
  }

  lemma {:induction false} FoldCell(r: Resources, ins: seq<Input>, c: Cell, amount: Input -> Option<real>)
    requires OneSign(r, ins, c)
    requires forall x :: amount(x) == TableCell(Fold(r, [x]), c)
    ensures TableCell(Fold(r, ins), c) == Joined(OpOf(c.field), ins, amount)
  {
    if ins == [] {
      assert Fold(r, []) == map[];
    } else {
      var n := |ins| - 1;
      assert ins == ins[..n] + [ins[n]];
      PartsWrite(r, ins[..n], [ins[n]], c);
      FoldCell(r, ins[..n], c, amount);
    }
  }

  /** A settled database has joined, for every cell, what the parsed messages would write one by one. */
  lemma SettledCell(r: Resources, n: nat, ss: seq<State>, c: Cell, amount: Input -> Option<real>)
    requires Run(r, n, ss) && Settled(ss[|ss| - 1]) && OneSign(r, ss[|ss| - 1].parsed, c)
    requires forall x :: amount(x) == TableCell(Fold(r, [x]), c)
    ensures DbCell(ss[|ss| - 1].db, c) == Joined(OpOf(c.field), ss[|ss| - 1].parsed, amount)
  {
    ParallelIsSequential(r, n, ss, c);
    FoldCell(r, ss[|ss| - 1].parsed, c, amount);
  }

  // ----- counting

  function HowMany(ins: seq<Input>, p: Input -> bool): (n: nat) {
    if ins == [] then 0 else HowMany(ins[..|ins|-1], p) + if p(ins[|ins|-1]) then 1 else 0
  }

  /** How many of the messages are counted; nothing if none is even seen. */
  function Tally(ins: seq<Input>, seen: Input -> bool, counted: Input -> bool): (v: Option<real>) {
    if HowMany(ins, seen) == 0 then None else Some(HowMany(ins, counted) as real)
  }

  function OneOrZero(seen: bool, counted: bool): (v: Option<real>) {
    if seen then Some(if counted then 1.0 else 0.0) else None
  }

  lemma {:induction false} JoinedCounts(ins: seq<Input>, amount: Input -> Option<real>, seen: Input -> bool,
                                        counted: Input -> bool)
    requires forall x :: counted(x) ==> seen(x)
    requires forall x :: amount(x) == OneOrZero(seen(x), counted(x))
    ensures Joined(Add, ins, amount) == Tally(ins, seen, counted)
    ensures HowMany(ins, counted) <= HowMany(ins, seen)
  {
    if ins != [] {
      JoinedCounts(ins[..|ins|-1], amount, seen, counted);
    }
  }

  /** A cell that each message raises by one or by zero is a count. */
  lemma SettledCount(r: Resources, n: nat, ss: seq<State>, c: Cell, seen: Input -> bool, counted: Input -> bool)
    requires Run(r, n, ss) && Settled(ss[|ss| - 1]) && !IsMetric(c.field)
    requires forall x :: counted(x) ==> seen(x)
    requires forall x :: TableCell(Fold(r, [x]), c) == OneOrZero(seen(x), counted(x))
    ensures DbCell(ss[|ss| - 1].db, c) == Tally(ss[|ss| - 1].parsed, seen, counted)
  {
    var amount := (x: Input) => OneOrZero(seen(x), counted(x));
    SettledCell(r, n, ss, c, amount);
    JoinedCounts(ss[|ss| - 1].parsed, amount, seen, counted);
  }

  // ----- totals and minutes

  ghost predicate IsRecord(doc: Doc) { doc.TotalsDoc? || doc.MinutesDoc? }

  /** The message belongs to the database, the namespace and the minute of a document. */
  ghost predicate Concerns(x: Input, doc: Doc)
    requires !doc.AgentsDoc?
  {
    && x.db == doc.db && !x.msg.Event? && InSpace(x.msg, doc.page)
    && (doc.MinutesDoc? || doc.HeatmapDoc? ==> x.msg.minute == doc.minute)
  }

  predicate IsCounter(f: Field) {
    f.RequestCount? || f.PageCount? || f.AjaxCount? || f.FrontendCount? || f.Other?
  }

  predicate CountsFor(m: Message, f: Field)
    requires IsCounter(f)
  {
    match f
    case RequestCount => BackendRequest(m)
    case PageCount => PageRequest(m)
    case AjaxCount => AjaxRequest(m)
    case FrontendCount => PageRequest(m) || AjaxRequest(m)
    case Other(tag) => Tagged(m, tag)
  }

  ghost predicate Counted(x: Input, doc: Doc, f: Field)
    requires IsRecord(doc) && IsCounter(f)
  {
    Concerns(x, doc) && CountsFor(x.msg, f)
  }

  lemma SingleRecord(r: Resources, x: Input, doc: Doc)
    requires IsRecord(doc)
    ensures IncsAt(Fold(r, [x]), doc) ==
            if ShareOf(r, x.msg).Some? && Concerns(x, doc) then Some(ShareOf(r, x.msg).value.incs) else None
  {
    SingleIsFold(r, x);
    ShareIsRead(r, x.msg);
    if ShareOf(r, x.msg).Some? { SpacesAreRead(r, x.msg, doc.page); }
    match doc
    case TotalsDoc(_, page) => SingleTotals(r, x.msg, page);
    case MinutesDoc(_, page, minute) => SingleMinutes(r, x.msg, minute, page);
  }

  lemma RecordCell(t: Table, doc: Doc, f: Field)
    requires IsRecord(doc)
    ensures TableCell(t, Cell(doc, f)) == IncsOption(IncsAt(t, doc), f)
  {
  }

  lemma ShareCounts(r: Resources, m: Message, f: Field)
    requires ShareOf(r, m).Some? && IsCounter(f)
    ensures IncsCell(ShareOf(r, m).value.incs, f) == if CountsFor(m, f) then Some(1.0) else None
  {
    ShareIsRead(r, m);
    if f.Other? { TagsAreRead(r, m, f.tag); }
  }

  lemma CountedHasShare(r: Resources, m: Message, f: Field)
    requires IsCounter(f) && CountsFor(m, f)
    ensures ShareOf(r, m).Some?
  {
    ShareIsRead(r, m);
  }

  lemma SingleCount(r: Resources, x: Input, doc: Doc, f: Field)
    requires IsRecord(doc) && IsCounter(f)
    ensures TableCell(Fold(r, [x]), Cell(doc, f)) == if Counted(x, doc, f) then Some(1.0) else None
  {
    SingleRecord(r, x, doc);
    RecordCell(Fold(r, [x]), doc, f);
    if CountsFor(x.msg, f) { CountedHasShare(r, x.msg, f); }
    if ShareOf(r, x.msg).Some? { ShareCounts(r, x.msg, f); }
  }

  ghost function CountedIn(doc: Doc, f: Field): (p: Input -> bool)
    requires IsRecord(doc) && IsCounter(f)
  {
    (x: Input) => Counted(x, doc, f)
  }

  /**
   * Request counts, apdex scores and tags: in totals and in minutes, a counter
   * is the number of messages that count for it, and absent if there is none.
   */
  lemma CountersCount(r: Resources, n: nat, ss: seq<State>, doc: Doc, f: Field)
    requires Run(r, n, ss) && Settled(ss[|ss| - 1])
    requires IsRecord(doc) && IsCounter(f)
    ensures var z := ss[|ss| - 1];
            DbCell(z.db, Cell(doc, f)) == Tally(z.parsed, CountedIn(doc, f), CountedIn(doc, f))
  {
    var p := CountedIn(doc, f);
    forall x ensures TableCell(Fold(r, [x]), Cell(doc, f)) == OneOrZero(p(x), p(x)) {
      SingleCount(r, x, doc, f);
    }
    SettledCount(r, n, ss, Cell(doc, f), p, p);
  }

  lemma {:induction false} FrontendAdds(ins: seq<Input>, doc: Doc)
    requires IsRecord(doc)
    ensures HowMany(ins, CountedIn(doc, FrontendCount)) ==
            HowMany(ins, CountedIn(doc, PageCount)) + HowMany(ins, CountedIn(doc, AjaxCount))
  {
    if ins != [] {
      FrontendAdds(ins[..|ins|-1], doc);
    }
  }

  /** The frontend count is the page count and the ajax count together, each of them absent if zero. */
  lemma FrontendIsPagesAndAjax(r: Resources, n: nat, ss: seq<State>, doc: Doc)
    requires Run(r, n, ss) && Settled(ss[|ss| - 1]) && IsRecord(doc)
    ensures var db := ss[|ss| - 1].db;
            DbCell(db, Cell(doc, FrontendCount)) ==
            Join(Add, DbCell(db, Cell(doc, PageCount)), DbCell(db, Cell(doc, AjaxCount)))
  {
    CountersCount(r, n, ss, doc, FrontendCount);
    CountersCount(r, n, ss, doc, PageCount);
    CountersCount(r, n, ss, doc, AjaxCount);
    FrontendAdds(ss[|ss| - 1].parsed, doc);
  }

  // ----- metrics

  function OrZero(v: Option<real>): (x: real) { if v.Some? then v.value else 0.0 }

  /** What a message contributes to a metric of a document. */
  ghost function Worth(r: Resources, x: Input, doc: Doc, i: nat): (v: real)
    requires IsRecord(doc)
  {
    if Concerns(x, doc) && Request(x.msg) && i < |r.names| then OrZero(Value(r, x.msg, r.names[i])) else 0.0
  }

  ghost function Worths(r: Resources, doc: Doc, i: nat): (f: Input -> real)
    requires IsRecord(doc)
  {
    (x: Input) => Worth(r, x, doc, i)
  }

  ghost function Squares(r: Resources, doc: Doc, i: nat): (f: Input -> real)
    requires IsRecord(doc)
  {
    (x: Input) => Worth(r, x, doc, i) * Worth(r, x, doc, i)
  }

  lemma ShareMetric(r: Resources, m: Message, i: nat)
    requires ShareOf(r, m).Some?
    ensures |ShareOf(r, m).value.incs.metrics| == |r.names|
    ensures i < |r.names| ==>
              ShareOf(r, m).value.incs.metrics[i] ==
              if Request(m) then Recorded(Value(r, m, r.names[i])) else NO_METRIC
  {
    ShareIsRead(r, m);
    if Request(m) && i < |r.names| { ValuesAreRead(r, m, i); }
  }

  function Plainly(v: real): (m: Metric) { Metric(v, v * v, v) }

  lemma RecordedPlainly(v: Option<real>)
    ensures Recorded(v) == Plainly(OrZero(v)) && NO_METRIC == Plainly(0.0)
  {
  }

  lemma WorthIsRecorded(r: Resources, x: Input, doc: Doc, i: nat)
    requires IsRecord(doc) && ShareOf(r, x.msg).Some? && Concerns(x, doc) && i < |r.names|
    ensures |ShareOf(r, x.msg).value.incs.metrics| == |r.names|
    ensures ShareOf(r, x.msg).value.incs.metrics[i] == Plainly(Worth(r, x, doc, i))
  {
    ShareMetric(r, x.msg, i);
    RecordedPlainly(if Request(x.msg) then Value(r, x.msg, r.names[i]) else None);
  }

  lemma SingleMetric(r: Resources, x: Input, doc: Doc, i: nat)
    requires IsRecord(doc)
    ensures MetricAt(Fold(r, [x]), doc, i) ==
            if ShareOf(r, x.msg).Some? && Concerns(x, doc) && i < |r.names|
            then Some(Plainly(Worth(r, x, doc, i))) else None
    ensures MetricAt(Fold(r, [x]), doc, i) == None ==> Worth(r, x, doc, i) == 0.0
  {
    SingleRecord(r, x, doc);
    ShareIsRead(r, x.msg);
    if ShareOf(r, x.msg).Some? {
      ShareMetric(r, x.msg, i);
      if Concerns(x, doc) && i < |r.names| { WorthIsRecorded(r, x, doc, i); }
    }
  }

  function PartOf(f: Field, v: real): (w: real) { if f.ValSquared? then v * v else v }

  lemma MetricCell(t: Table, doc: Doc, f: Field)
    requires IsRecord(doc) && IsMetric(f)
    ensures TableCell(t, Cell(doc, f)) ==
            match MetricAt(t, doc, f.i)
            case None => None
            case Some(m) => Written(m, if f.Val? then m.val else if f.ValSquared? then m.valSquared else m.valMax)
  {
  }

  lemma SingleMetricCell(r: Resources, x: Input, doc: Doc, f: Field)
    requires IsRecord(doc) && IsMetric(f)
    ensures var v := Worth(r, x, doc, f.i);
            TableCell(Fold(r, [x]), Cell(doc, f)) == if v > 0.0 then Some(PartOf(f, v)) else None
    ensures ValOf(r, x, doc, f.i) == Worth(r, x, doc, f.i)
  {
    SingleMetric(r, x, doc, f.i);
    MetricCell(Fold(r, [x]), doc, f);
  }

  /** Every message contributes something positive or nothing, or every message something negative or nothing. */
  ghost predicate SameSigns(ins: seq<Input>, worth: Input -> real) {
    || (forall j :: 0 <= j < |ins| ==> worth(ins[j]) >= 0.0)
    || (forall j :: 0 <= j < |ins| ==> worth(ins[j]) <= 0.0)
  }

  ghost function Amounts(f: Field, worth: Input -> real): (amount: Input -> Option<real>) {
    (x: Input) => if worth(x) > 0.0 then Some(PartOf(f, worth(x))) else None
  }

  ghost predicate AnyPositive(ins: seq<Input>, worth: Input -> real) {
    exists j :: 0 <= j < |ins| && worth(ins[j]) > 0.0
  }

  lemma SettledMetric(r: Resources, n: nat, ss: seq<State>, doc: Doc, f: Field)
    requires Run(r, n, ss) && Settled(ss[|ss| - 1])
    requires IsRecord(doc) && IsMetric(f) && SameSigns(ss[|ss| - 1].parsed, Worths(r, doc, f.i))
    ensures var z := ss[|ss| - 1];
            DbCell(z.db, Cell(doc, f)) == Joined(OpOf(f), z.parsed, Amounts(f, Worths(r, doc, f.i)))
  {
    var c := Cell(doc, f);
    var amount := Amounts(f, Worths(r, doc, f.i));
    forall x ensures amount(x) == TableCell(Fold(r, [x]), c) && ValOf(r, x, doc, f.i) == Worth(r, x, doc, f.i) {
      SingleMetricCell(r, x, doc, f);
    }
    SettledCell(r, n, ss, c, amount);
  }

  lemma {:induction false} JoinedSums(ins: seq<Input>, f: Field, worth: Input -> real, part: Input -> real)
    requires forall j :: 0 <= j < |ins| ==> worth(ins[j]) >= 0.0
    requires forall x :: part(x) == PartOf(f, worth(x))
    ensures Joined(Add, ins, Amounts(f, worth)) ==
            if AnyPositive(ins, worth) then Some(Sum(ins, part)) else None
    ensures !AnyPositive(ins, worth) ==> Sum(ins, part) == 0.0
  {
    if ins != [] {
      var n := |ins| - 1;
      JoinedSums(ins[..n], f, worth, part);
      assert AnyPositive(ins, worth) <==> AnyPositive(ins[..n], worth) || worth(ins[n]) > 0.0 by {
        if AnyPositive(ins[..n], worth) {
          var j :| 0 <= j < n && worth(ins[..n][j]) > 0.0;
          assert worth(ins[j]) > 0.0;
        }
        if AnyPositive(ins, worth) {
          var j :| 0 <= j < |ins| && worth(ins[j]) > 0.0;
          assert j < n ==> worth(ins[..n][j]) > 0.0;
        }
      }
    }
  }

  lemma {:induction false} JoinedNothing(op: (real, real) -> real, ins: seq<Input>, f: Field, worth: Input -> real)
    requires forall j :: 0 <= j < |ins| ==> worth(ins[j]) <= 0.0
    ensures Joined(op, ins, Amounts(f, worth)) == None
  {
    if ins != [] {
      JoinedNothing(op, ins[..|ins|-1], f, worth);
    }
  }

  lemma {:induction false} JoinedMaximum(ins: seq<Input>, i: nat, worth: Input -> real)
    ensures match Joined(Max, ins, Amounts(ValMax(i), worth))
            case None => !AnyPositive(ins, worth)
            case Some(v) => v > 0.0 && (exists j :: 0 <= j < |ins| && worth(ins[j]) == v)
                            && forall j :: 0 <= j < |ins| ==> worth(ins[j]) <= v
  {
    if ins != [] {
      var n := |ins| - 1;
      JoinedMaximum(ins[..n], i, worth);
      assert forall j :: 0 <= j < n ==> ins[..n][j] == ins[j];
    }
  }

  lemma SettledSum(r: Resources, n: nat, ss: seq<State>, doc: Doc, f: Field, part: Input -> real)
    requires Run(r, n, ss) && Settled(ss[|ss| - 1])
    requires IsRecord(doc) && (f.Val? || f.ValSquared?) && SameSigns(ss[|ss| - 1].parsed, Worths(r, doc, f.i))
    requires forall x :: part(x) == PartOf(f, Worth(r, x, doc, f.i))
    ensures var z := ss[|ss| - 1];
            DbCell(z.db, Cell(doc, f)) ==
            if AnyPositive(z.parsed, Worths(r, doc, f.i)) then Some(Sum(z.parsed, part)) else None
  {
    var ins := ss[|ss| - 1].parsed;
    var worth := Worths(r, doc, f.i);
    SettledMetric(r, n, ss, doc, f);
    if forall j :: 0 <= j < |ins| ==> worth(ins[j]) >= 0.0 {
      JoinedSums(ins, f, worth, part);
    } else {
      JoinedNothing(Add, ins, f, worth);
    }
  }

  /**
   * A metric of totals and minutes is the sum of the values of the requests that state it, its square the sum of their
   * squares, as long as they do not mix signs; nothing is written unless one of them is positive.
   */
  lemma MetricsSum(r: Resources, n: nat, ss: seq<State>, doc: Doc, i: nat)
    requires Run(r, n, ss) && Settled(ss[|ss| - 1])
    requires IsRecord(doc) && SameSigns(ss[|ss| - 1].parsed, Worths(r, doc, i))
    ensures var z := ss[|ss| - 1];
            var some := AnyPositive(z.parsed, Worths(r, doc, i));
            && DbCell(z.db, Cell(doc, Val(i))) == (if some then Some(Sum(z.parsed, Worths(r, doc, i))) else None)
            && DbCell(z.db, Cell(doc, ValSquared(i))) ==
               (if some then Some(Sum(z.parsed, Squares(r, doc, i))) else None)
  {
    SettledSum(r, n, ss, doc, Val(i), Worths(r, doc, i));
    SettledSum(r, n, ss, doc, ValSquared(i), Squares(r, doc, i));
  }

  /** The maximum of a metric is the largest value that a request has stated, if that is positive. */
  lemma MaximaAreLargest(r: Resources, n: nat, ss: seq<State>, doc: Doc, i: nat)
    requires Run(r, n, ss) && Settled(ss[|ss| - 1])
    requires IsRecord(doc) && SameSigns(ss[|ss| - 1].parsed, Worths(r, doc, i))
    ensures var z := ss[|ss| - 1];
            match DbCell(z.db, Cell(doc, ValMax(i)))
            case None => !AnyPositive(z.parsed, Worths(r, doc, i))
            case Some(v) =>
              && v > 0.0 && (exists j :: 0 <= j < |z.parsed| && Worth(r, z.parsed[j], doc, i) == v)
              && forall j :: 0 <= j < |z.parsed| ==> Worth(r, z.parsed[j], doc, i) <= v
  {
    SettledMetric(r, n, ss, doc, ValMax(i));
    JoinedMaximum(ss[|ss| - 1].parsed, i, Worths(r, doc, i));
  }
}
