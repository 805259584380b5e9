/**
 * Counters that the processor keeps independently of each other agree in
 * every table that messages and merges can produce. By `FoldConcat` and
 * `FoldPermutes` those tables are the folds of message sequences.
 */
module Agreement {
  import opened Options
  import opened Merging
  import opened KeyCodec
  import opened Increments
  import opened ProcessorModel
  import opened Cells
  import opened Singles

  // ----- totals are the sum of all minutes

  lemma JoinLaws(a: Option<Incs>, b: Option<Incs>, c: Option<Incs>, d: Option<Incs>)
    ensures Join(AddIncs, Join(AddIncs, a, b), Join(AddIncs, c, d)) ==
            Join(AddIncs, Join(AddIncs, a, c), Join(AddIncs, b, d))
  {
    AddIncsLaws();
    if a.Some? && b.Some? && c.Some? && d.Some? {
      var w, x, y, z := a.value, b.value, c.value, d.value;
      assert AddIncs(AddIncs(w, x), AddIncs(y, z)) == AddIncs(w, AddIncs(AddIncs(x, y), z));
      assert AddIncs(x, y) == AddIncs(y, x);
    }
  }

  /** The counters of all minutes before `end` put together. */
  function Minutes(t: Table, db: string, ns: string, end: nat): (incs: Option<Incs>) {
    if end == 0 then None
    else Join(AddIncs, Minutes(t, db, ns, end - 1), IncsAt(t, MinutesDoc(db, ns, end - 1)))
  }

  lemma {:induction false} MinutesMerge(a: Table, b: Table, db: string, ns: string, end: nat)
    ensures Minutes(MergeTables(a, b), db, ns, end) == Join(AddIncs, Minutes(a, db, ns, end), Minutes(b, db, ns, end))
  {
    if end > 0 {
      MinutesMerge(a, b, db, ns, end - 1);
      IncsAtMerges(a, b, MinutesDoc(db, ns, end - 1));
      JoinLaws(Minutes(a, db, ns, end - 1), Minutes(b, db, ns, end - 1),
               IncsAt(a, MinutesDoc(db, ns, end - 1)), IncsAt(b, MinutesDoc(db, ns, end - 1)));
    }
  }

  function MinuteOf(m: Message): (minute: nat) { if m.Event? then 0 else m.minute }

  function InMinute(share: Option<Share>, owner: string, db: string, ns: string, minute: nat): (incs: Option<Incs>) {
    match share
    case None => None
    case Some(s) => if db == owner && s.minute == minute && ns in s.spaces then Some(s.incs) else None
  }

  lemma {:induction false} OneMinute(t: Table, share: Option<Share>, owner: string, db: string, ns: string, end: nat)
    requires forall minute :: IncsAt(t, MinutesDoc(db, ns, minute)) == InMinute(share, owner, db, ns, minute)
    ensures Minutes(t, db, ns, end) ==
            match share
            case None => None
            case Some(s) => if db == owner && s.minute < end && ns in s.spaces then Some(s.incs) else None
  {
    if end > 0 {
      OneMinute(t, share, owner, db, ns, end - 1);
      assert IncsAt(t, MinutesDoc(db, ns, end - 1)) == InMinute(share, owner, db, ns, end - 1);
    }
  }

  lemma SingleMinuteAt(r: Resources, i: Input, db: string, ns: string, minute: nat)
    ensures IncsAt(Fold(r, [i]), MinutesDoc(db, ns, minute)) == InMinute(ShareOf(r, i.msg), i.db, db, ns, minute)
  {
    SingleIsFold(r, i);
    SingleMinutes(r, i.msg, minute, ns);
  }

  lemma SingleMinutesSum(r: Resources, i: Input, db: string, ns: string, end: nat)
    ensures Minutes(Fold(r, [i]), db, ns, end) ==
            match ShareOf(r, i.msg)
            case None => None
            case Some(s) => if db == i.db && s.minute < end && ns in s.spaces then Some(s.incs) else None
  {
    forall minute
      ensures IncsAt(Fold(r, [i]), MinutesDoc(db, ns, minute)) ==
              InMinute(ShareOf(r, i.msg), i.db, db, ns, minute)
    {
      SingleMinuteAt(r, i, db, ns, minute);
    }
    OneMinute(Fold(r, [i]), ShareOf(r, i.msg), i.db, db, ns, end);
  }

  lemma ShareMinute(r: Resources, m: Message)
    requires ShareOf(r, m).Some?
    ensures ShareOf(r, m).value.minute == MinuteOf(m)
  {
  }

  /** In every field, the totals of a namespace are its minutes put together. */
  lemma {:induction false} TotalsAreMinutes(r: Resources, ins: seq<Input>, db: string, ns: string, end: nat)
    requires forall j :: 0 <= j < |ins| ==> MinuteOf(ins[j].msg) < end
    ensures IncsAt(Fold(r, ins), TotalsDoc(db, ns)) == Minutes(Fold(r, ins), db, ns, end)
  {
    if ins == [] {
      NoMinutes(db, ns, end);
    } else {
      var n := |ins| - 1;
      var x := ins[n];
      TotalsAreMinutes(r, ins[..n], db, ns, end);
      ReceiveMerges(r, Fold(r, ins[..n]), x);
      IncsAtMerges(Fold(r, ins[..n]), Fold(r, [x]), TotalsDoc(db, ns));
      MinutesMerge(Fold(r, ins[..n]), Fold(r, [x]), db, ns, end);
      SingleIsFold(r, x);
      SingleTotals(r, x.msg, ns);
      SingleMinutesSum(r, x, db, ns, end);
      if ShareOf(r, x.msg).Some? { ShareMinute(r, x.msg); }
    }
  }

  lemma {:induction false} NoMinutes(db: string, ns: string, end: nat)
    ensures Minutes(map[], db, ns, end) == None
  {
    if end > 0 {
      NoMinutes(db, ns, end - 1);
    }
  }

  // ----- histograms count requests

  function SumTo(c: seq<int>, n: nat): (s: int) {
    if n == 0 then 0 else SumTo(c, n - 1) + if n - 1 < |c| then c[n - 1] else 0
  }

  lemma {:induction false} SumToAdds(a: seq<int>, b: seq<int>, n: nat)
    ensures SumTo(AddCounts(a, b), n) == SumTo(a, n) + SumTo(b, n)
  {
    if n > 0 {
      SumToAdds(a, b, n - 1);
    }
  }

  lemma {:induction false} SumToUnit(i: nat, size: nat, n: nat)
    requires i < size
    ensures SumTo(Unit(i, size), n) == if i < n then 1 else 0
  {
    if n > 0 {
      SumToUnit(i, size, n - 1);
    }
  }

  function HistogramAt(t: Table, db: string, minute: nat, resource: string, ns: string): (h: Option<seq<int>>) {
    if db in t then At(t[db].histograms, HistogramKey(minute, resource, ns)) else None
  }

  /** All observations in a histogram. */
  function Observed(h: Option<seq<int>>): (n: int) {
    if h.Some? then SumTo(h.value, HISTOGRAM_SIZE) else 0
  }

  lemma HistogramAtMerges(a: Table, b: Table, db: string, minute: nat, resource: string, ns: string)
    ensures Observed(HistogramAt(MergeTables(a, b), db, minute, resource, ns)) ==
            Observed(HistogramAt(a, db, minute, resource, ns)) + Observed(HistogramAt(b, db, minute, resource, ns))
  {
    var key := HistogramKey(minute, resource, ns);
    assert At(MergeTables(a, b), db) == Join(MergeProc, At(a, db), At(b, db));
    if db in a && db in b {
      assert At(MergeTables(a, b)[db].histograms, key) ==
             Join(AddCounts, At(a[db].histograms, key), At(b[db].histograms, key));
      if key in a[db].histograms && key in b[db].histograms {
        SumToAdds(a[db].histograms[key], b[db].histograms[key], HISTOGRAM_SIZE);
      }
    }
  }

  datatype Kind = Backend | Page | Ajax

  function ResourceOf(kind: Kind): (resource: string)
    ensures HyphenFree(resource)
  {
    match kind
    case Backend => "total_time"
    case Page => "page_time"
    case Ajax => "ajax_time"
  }

  function Requests(incs: Incs, kind: Kind): (n: int) {
    match kind
    case Backend => incs.backend
    case Page => incs.page
    case Ajax => incs.ajax
  }

  function RequestsAt(t: Table, doc: Doc, kind: Kind): (n: int) {
    var incs := IncsAt(t, doc);
    if incs.Some? then Requests(incs.value, kind) else 0
  }

  lemma RequestsAtMerges(a: Table, b: Table, doc: Doc, kind: Kind)
    ensures RequestsAt(MergeTables(a, b), doc, kind) == RequestsAt(a, doc, kind) + RequestsAt(b, doc, kind)
  {
    IncsAtMerges(a, b, doc);
  }

  /** A request has a histogram entry for its own kind only. */
  lemma ShareKinds(r: Resources, m: Message, kind: Kind)
    requires ShareOf(r, m).Some?
    ensures var s := ShareOf(r, m).value;
            Requests(s.incs, kind) == if s.timed.Some? && s.timed.value.0 == ResourceOf(kind) then 1 else 0
  {
    assert "total_time"[0] == 't' && "page_time"[0] == 'p' && "ajax_time"[0] == 'a';
  }

  lemma SingleHistogramCounts(r: Resources, i: Input, kind: Kind, db: string, minute: nat, ns: string)
    ensures Observed(HistogramAt(Fold(r, [i]), db, minute, ResourceOf(kind), ns)) ==
            RequestsAt(Fold(r, [i]), MinutesDoc(db, ns, minute), kind)
  {
    SingleIsFold(r, i);
    SingleHistograms(r, i.msg, minute, ResourceOf(kind), ns);
    SingleMinutes(r, i.msg, minute, ns);
    match ShareOf(r, i.msg)
    case None =>
    case Some(s) =>
      ShareKinds(r, i.msg, kind);
      if s.timed.Some? { SumToUnit(BucketIndex(s.timed.value.1), HISTOGRAM_SIZE, HISTOGRAM_SIZE); }
  }

  /** For every minute and namespace the histogram of a request kind holds one observation per request. */
  lemma {:induction false} HistogramsCountRequests(r: Resources, ins: seq<Input>, kind: Kind, db: string, minute: nat,
                                                   ns: string)
    ensures Observed(HistogramAt(Fold(r, ins), db, minute, ResourceOf(kind), ns)) ==
            RequestsAt(Fold(r, ins), MinutesDoc(db, ns, minute), kind)
  {
    if ins != [] {
      var n := |ins| - 1;
      HistogramsCountRequests(r, ins[..n], kind, db, minute, ns);
      ReceiveMerges(r, Fold(r, ins[..n]), ins[n]);
      HistogramAtMerges(Fold(r, ins[..n]), Fold(r, [ins[n]]), db, minute, ResourceOf(kind), ns);
      RequestsAtMerges(Fold(r, ins[..n]), Fold(r, [ins[n]]), MinutesDoc(db, ns, minute), kind);
      SingleHistogramCounts(r, ins[n], kind, db, minute, ns);
    }
  }

  // ----- apdex scores rate every request once

  ghost predicate AllRated(i: Incs) {
    && Rated(i.others, Apdex) == i.backend
    && Rated(i.others, Papdex) == i.page
    && Rated(i.others, Xapdex) == i.ajax
    && Rated(i.others, Fapdex) == i.page + i.ajax
  }

  lemma RatedAdds(a: map<Tag, int>, b: map<Tag, int>, family: Family)
    ensures Rated(Merge(Plus, a, b), family) == Rated(a, family) + Rated(b, family)
  {
    forall tag ensures Count(Merge(Plus, a, b), tag) == Count(a, tag) + Count(b, tag) {
      assert At(Merge(Plus, a, b), tag) == Join(Plus, At(a, tag), At(b, tag));
    }
  }

  lemma AllRatedAdds(a: Incs, b: Incs)
    requires AllRated(a) && AllRated(b)
    ensures AllRated(AddIncs(a, b))
  {
    RatedAdds(a.others, b.others, Apdex);
    RatedAdds(a.others, b.others, Papdex);
    RatedAdds(a.others, b.others, Xapdex);
    RatedAdds(a.others, b.others, Fapdex);
  }

  lemma ScoresRateOnce(family: Family, other: Family, time: real)
    ensures Rated(Scores(family, time), other) == if family == other then 1 else 0
  {
  }

  lemma RatedUnion(a: map<Tag, int>, b: map<Tag, int>, family: Family)
    requires forall l :: Score(family, l) !in b
    ensures Rated(a + b, family) == Rated(a, family)
  {
  }

  lemma RatedUnionRight(a: map<Tag, int>, b: map<Tag, int>, family: Family)
    requires forall l :: Score(family, l) !in a
    ensures Rated(a + b, family) == Rated(b, family)
  {
  }

  lemma ShareRated(r: Resources, m: Message)
    requires ShareOf(r, m).Some?
    ensures AllRated(ShareOf(r, m).value.incs)
  {
    forall f ensures m.Log? ==> Rated(ShareOf(r, m).value.incs.others, f) == if f == Apdex then 1 else 0 {
      if m.Log? {
        var t := TimeOf(m.fields, "total_time");
        RatedUnion(Scores(Apdex, t), NamedTags(m.tags), f);
        ScoresRateOnce(Apdex, f, t);
      }
    }
    forall f ensures m.FrontendPage? ==>
        Rated(ShareOf(r, m).value.incs.others, f) == if f == Fapdex || f == Papdex then 1 else 0 {
      if m.FrontendPage? { TwoScores(Papdex, TimeOf(m.fields, "page_time"), m.apdexTime, f); }
    }
    forall f ensures m.FrontendAjax? ==>
        Rated(ShareOf(r, m).value.incs.others, f) == if f == Fapdex || f == Xapdex then 1 else 0 {
      if m.FrontendAjax? { TwoScores(Xapdex, TimeOf(m.fields, "ajax_time"), TimeOf(m.fields, "ajax_time"), f); }
    }
  }

  lemma TwoScores(second: Family, t1: real, t2: real, f: Family)
    requires second != Fapdex
    ensures Rated(Scores(Fapdex, t1) + Scores(second, t2), f) == if f == Fapdex || f == second then 1 else 0
  {
    ScoresRateOnce(Fapdex, f, t1);
    ScoresRateOnce(second, f, t2);
    if f != second { RatedUnion(Scores(Fapdex, t1), Scores(second, t2), f); }
    if f != Fapdex { RatedUnionRight(Scores(Fapdex, t1), Scores(second, t2), f); }
  }

  /** Satisfied, tolerating and frustrated add up to the request counts, for all four apdex families. */
  lemma {:induction false} ScoresAddUp(r: Resources, ins: seq<Input>, doc: Doc)
    ensures var incs := IncsAt(Fold(r, ins), doc); incs.Some? ==> AllRated(incs.value)
  {
    if ins != [] {
      var n := |ins| - 1;
      var x := ins[n];
      ScoresAddUp(r, ins[..n], doc);
      ReceiveMerges(r, Fold(r, ins[..n]), x);
      IncsAtMerges(Fold(r, ins[..n]), Fold(r, [x]), doc);
      SingleScores(r, x, doc);
      var a, b := IncsAt(Fold(r, ins[..n]), doc), IncsAt(Fold(r, [x]), doc);
      if a.Some? && b.Some? { AllRatedAdds(a.value, b.value); }
    }
  }

  lemma SingleScores(r: Resources, i: Input, doc: Doc)
    ensures var incs := IncsAt(Fold(r, [i]), doc); incs.Some? ==> AllRated(incs.value)
  {
    SingleIsFold(r, i);
    if ShareOf(r, i.msg).Some? { ShareRated(r, i.msg); }
    match doc
    case TotalsDoc(_, page) => SingleTotals(r, i.msg, page);
    case MinutesDoc(_, page, minute) => SingleMinutes(r, i.msg, minute, page);
    case _ =>
  }
}
