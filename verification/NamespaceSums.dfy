/**
 * The request counts of "all_pages" against the sums over pages and over
 * modules: equal, except for requests whose page begins with a colon, which
 * are counted among the modules.
 */
module NamespaceSums {
  import opened Options
  import opened ProcessorModel
  import opened Cells
  import opened Singles
  import opened Agreement

  // ----- finite sums

  ghost function Sum(keys: set<string>, f: string -> int): (s: int) {
    if keys == {} then 0 else var k :| k in keys; f(k) + Sum(keys - {k}, f)
  }

  lemma {:induction false} SumAdds(keys: set<string>, f: string -> int, g: string -> int, h: string -> int)
    requires forall k :: k in keys ==> h(k) == f(k) + g(k)
    ensures Sum(keys, h) == Sum(keys, f) + Sum(keys, g)
  {
    if keys != {} {
      var k :| k in keys && Sum(keys, h) == h(k) + Sum(keys - {k}, h);
      SumTakes(keys, f, k);
      SumTakes(keys, g, k);
      SumAdds(keys - {k}, f, g, h);
    }
  }

  lemma {:induction false} SumTakes(keys: set<string>, f: string -> int, x: string)
    requires x in keys
    ensures Sum(keys, f) == f(x) + Sum(keys - {x}, f)
  {
    var k :| k in keys && Sum(keys, f) == f(k) + Sum(keys - {k}, f);
    if k != x {
      SumTakes(keys - {k}, f, x);
      SumTakes(keys - {x}, f, k);
      assert keys - {k} - {x} == keys - {x} - {k};
    }
  }

  lemma {:induction false} SumZero(keys: set<string>, f: string -> int)
    requires forall k :: k in keys ==> f(k) == 0
    ensures Sum(keys, f) == 0
  {
    if keys != {} {
      var k :| k in keys && Sum(keys, f) == f(k) + Sum(keys - {k}, f);
      SumZero(keys - {k}, f);
    }
  }

  /** Only two keys carry weight. */
  lemma SumTwo(keys: set<string>, f: string -> int, x: string, y: string)
    requires x in keys && y in keys && x != y
    requires forall k :: k in keys && k != x && k != y ==> f(k) == 0
    ensures Sum(keys, f) == f(x) + f(y)
  {
    SumTakes(keys, f, x);
    SumTakes(keys - {x}, f, y);
    SumZero(keys - {x} - {y}, f);
  }

  // ----- pages and modules

  predicate IsModule(ns: string) { ns != "" && ns[0] == ':' }

  predicate IsPage(ns: string) { ns != ALL_PAGES && !IsModule(ns) }

  /** The requests of a kind per namespace. */
  ghost function Counts(t: Table, db: string, kind: Kind): string -> int {
    ns => RequestsAt(t, TotalsDoc(db, ns), kind)
  }

  ghost function Pages(counts: string -> int): string -> int {
    ns => if IsPage(ns) then counts(ns) else 0
  }

  ghost function Modules(counts: string -> int): string -> int {
    ns => if IsModule(ns) then counts(ns) else 0
  }

  lemma CountsAdd(keys: set<string>, f: string -> int, g: string -> int, h: string -> int)
    requires forall ns :: h(ns) == f(ns) + g(ns)
    ensures Sum(keys, Pages(h)) == Sum(keys, Pages(f)) + Sum(keys, Pages(g))
    ensures Sum(keys, Modules(h)) == Sum(keys, Modules(f)) + Sum(keys, Modules(g))
  {
    SumAdds(keys, Pages(f), Pages(g), Pages(h));
    SumAdds(keys, Modules(f), Modules(g), Modules(h));
  }

  /** `n` requests counted under a page, a module and "all_pages". */
  lemma ThreeSums(keys: set<string>, counts: string -> int, page: string, m: string, n: int)
    requires page in keys && m in keys && page != m && page != ALL_PAGES && m != ALL_PAGES
    requires IsModule(m) && !IsModule(ALL_PAGES)
    requires forall ns :: counts(ns) == if ns == page || ns == m || ns == ALL_PAGES then n else 0
    ensures Sum(keys, Pages(counts)) == if IsModule(page) then 0 else n
    ensures Sum(keys, Modules(counts)) == if IsModule(page) then 2 * n else n
  {
    SumTwo(keys, Pages(counts), page, m);
    SumTwo(keys, Modules(counts), page, m);
  }

  /** How many requests of a kind a message counts: none or one. */
  function Counted(r: Resources, i: Input, db: string, kind: Kind): (n: int) {
    match ShareOf(r, i.msg)
    case None => 0
    case Some(s) => if i.db == db then Requests(s.incs, kind) else 0
  }

  predicate ColonPage(r: Resources, i: Input) {
    var s := ShareOf(r, i.msg);
    s.Some? && s.value.timed.Some? && s.value.spaces != [] && IsModule(s.value.spaces[0])
  }

  function Total(ins: seq<Input>, count: Input -> int): (n: int) {
    if ins == [] then 0 else Total(ins[..|ins|-1], count) + count(ins[|ins|-1])
  }

  function ColonCount(r: Resources, db: string, kind: Kind): (count: Input -> int) {
    i => if ColonPage(r, i) then Counted(r, i, db, kind) else 0
  }

  /** The requests whose page begins with a colon. */
  function ColonRequests(r: Resources, ins: seq<Input>, db: string, kind: Kind): (n: int) {
    Total(ins, ColonCount(r, db, kind))
  }

  lemma TimedSpaces(r: Resources, m: Message)
    requires ShareOf(r, m).Some? && ShareOf(r, m).value.timed.Some?
    ensures var s := ShareOf(r, m).value;
            && |s.spaces| == 3 && s.spaces[1] == ModuleOf(s.spaces[0]) && s.spaces[2] == ALL_PAGES
            && s.spaces[0] != s.spaces[1] && s.spaces[0] != ALL_PAGES && s.spaces[1] != ALL_PAGES
            && IsModule(s.spaces[1]) && !IsModule(ALL_PAGES)
  {
    NamespacesDiffer(PageOf(m.action, m.logjamAction));
    assert ALL_PAGES[0] == 'a';
  }

  lemma SingleRequests(r: Resources, i: Input, db: string, ns: string, kind: Kind)
    ensures RequestsAt(Fold(r, [i]), TotalsDoc(db, ns), kind) ==
            match ShareOf(r, i.msg)
            case None => 0
            case Some(s) => if i.db == db && ns in s.spaces then Requests(s.incs, kind) else 0
  {
    SingleIsFold(r, i);
    SingleTotals(r, i.msg, ns);
  }

  /** The three sums for one message. */
  lemma SingleSums(r: Resources, i: Input, db: string, kind: Kind, keys: set<string>)
    requires forall ns :: IncsAt(Fold(r, [i]), TotalsDoc(db, ns)).Some? ==> ns in keys
    ensures var t := Fold(r, [i]);
            var n := Counted(r, i, db, kind);
            var c := if ColonPage(r, i) then n else 0;
            && Sum(keys, Pages(Counts(t, db, kind))) == n - c
            && Sum(keys, Modules(Counts(t, db, kind))) == n + c
            && RequestsAt(t, TotalsDoc(db, ALL_PAGES), kind) == n
  {
    SingleRequests(r, i, db, ALL_PAGES, kind);
    AllPagesShare(r, i.msg);
    if Counted(r, i, db, kind) == 0 {
      UncountedSums(r, i, db, kind, keys);
    } else {
      CountedSums(r, i, db, kind, keys);
    }
  }

  lemma UncountedSums(r: Resources, i: Input, db: string, kind: Kind, keys: set<string>)
    requires Counted(r, i, db, kind) == 0
    ensures var counts := Counts(Fold(r, [i]), db, kind); Sum(keys, Pages(counts)) == Sum(keys, Modules(counts)) == 0
  {
    var counts := Counts(Fold(r, [i]), db, kind);
    forall ns ensures counts(ns) == 0 { SingleRequests(r, i, db, ns, kind); }
    SumZero(keys, Pages(counts));
    SumZero(keys, Modules(counts));
  }

  lemma CountedSums(r: Resources, i: Input, db: string, kind: Kind, keys: set<string>)
    requires forall ns :: IncsAt(Fold(r, [i]), TotalsDoc(db, ns)).Some? ==> ns in keys
    requires Counted(r, i, db, kind) != 0
    ensures var counts, n := Counts(Fold(r, [i]), db, kind), Counted(r, i, db, kind);
            && Sum(keys, Pages(counts)) == (if ColonPage(r, i) then 0 else n)
            && Sum(keys, Modules(counts)) == (if ColonPage(r, i) then 2 * n else n)
  {
    var counts, n := Counts(Fold(r, [i]), db, kind), Counted(r, i, db, kind);
    var page, m := CountedSpaces(r, i, db, kind, keys);
    forall ns ensures counts(ns) == if ns == page || ns == m || ns == ALL_PAGES then n else 0 {
      SingleRequests(r, i, db, ns, kind);
    }
    ThreeSums(keys, counts, page, m, n);
  }

  lemma CountedSpaces(r: Resources, i: Input, db: string, kind: Kind, keys: set<string>)
    returns (page: string, m: string)
    requires forall ns :: IncsAt(Fold(r, [i]), TotalsDoc(db, ns)).Some? ==> ns in keys
    requires Counted(r, i, db, kind) != 0
    ensures var s := ShareOf(r, i.msg).value;
            && s.spaces == [page, m, ALL_PAGES]
            && page in keys && m in keys && page != m && page != ALL_PAGES && m != ALL_PAGES
            && IsModule(m) && !IsModule(ALL_PAGES)
            && (ColonPage(r, i) <==> IsModule(page))
  {
    var s := ShareOf(r, i.msg).value;
    ShareKinds(r, i.msg, kind);
    TimedSpaces(r, i.msg);
    SingleIsFold(r, i);
    page, m := s.spaces[0], s.spaces[1];
    SingleTotals(r, i.msg, page);
    SingleTotals(r, i.msg, m);
    assert s.spaces[0] in s.spaces && s.spaces[1] in s.spaces;
    assert IncsAt(Fold(r, [i]), TotalsDoc(db, page)).Some? && IncsAt(Fold(r, [i]), TotalsDoc(db, m)).Some?;
  }

  lemma AllPagesShare(r: Resources, m: Message)
    ensures ShareOf(r, m).Some? ==> ALL_PAGES in ShareOf(r, m).value.spaces
  {
    if m.JsException? {
      assert JsSpaces(JsPageOf(m.logjamAction))[0] == ALL_PAGES;
    } else if ShareOf(r, m).Some? {
      assert ShareOf(r, m).value.spaces[2] == ALL_PAGES;
    }
  }

  /**
   * Requests over all pages, over all modules and of "all_pages". The sums run over any finite set of namespaces
   * that contains all stored ones.
   */
  lemma {:induction false} CountsAcrossNamespaces(r: Resources, ins: seq<Input>, db: string, kind: Kind,
                                                  keys: set<string>)
    requires forall ns :: IncsAt(Fold(r, ins), TotalsDoc(db, ns)).Some? ==> ns in keys
    ensures var t := Fold(r, ins);
            var all := RequestsAt(t, TotalsDoc(db, ALL_PAGES), kind);
            && Sum(keys, Pages(Counts(t, db, kind))) == all - ColonRequests(r, ins, db, kind)
            && Sum(keys, Modules(Counts(t, db, kind))) == all + ColonRequests(r, ins, db, kind)
  {
    if ins == [] {
      SumZero(keys, Pages(Counts(map[], db, kind)));
      SumZero(keys, Modules(Counts(map[], db, kind)));
    } else {
      var n := |ins| - 1;
      var a, b, t := Fold(r, ins[..n]), Fold(r, [ins[n]]), Fold(r, ins);
      ReceiveMerges(r, a, ins[n]);
      forall ns
        ensures RequestsAt(t, TotalsDoc(db, ns), kind) ==
                RequestsAt(a, TotalsDoc(db, ns), kind) + RequestsAt(b, TotalsDoc(db, ns), kind)
        ensures IncsAt(a, TotalsDoc(db, ns)).Some? || IncsAt(b, TotalsDoc(db, ns)).Some? ==> ns in keys
      {
        RequestsAtMerges(a, b, TotalsDoc(db, ns), kind);
        IncsAtMerges(a, b, TotalsDoc(db, ns));
        assert IncsAt(t, TotalsDoc(db, ns)).Some? ==> ns in keys;
      }
      CountsAcrossNamespaces(r, ins[..n], db, kind, keys);
      SingleSums(r, ins[n], db, kind, keys);
      CountsAdd(keys, Counts(a, db, kind), Counts(b, db, kind), Counts(t, db, kind));
    }
  }

  /** All three counts agree exactly when no request's page begins with a colon. */
  lemma CountsAgreeExactly(r: Resources, ins: seq<Input>, db: string, kind: Kind, keys: set<string>)
    requires forall ns :: IncsAt(Fold(r, ins), TotalsDoc(db, ns)).Some? ==> ns in keys
    ensures var t := Fold(r, ins);
            var all := RequestsAt(t, TotalsDoc(db, ALL_PAGES), kind);
            Sum(keys, Pages(Counts(t, db, kind))) == all == Sum(keys, Modules(Counts(t, db, kind))) <==>
            NoColonRequests(r, ins, db, kind)
  {
    CountsAcrossNamespaces(r, ins, db, kind, keys);
    ColonRequestsZero(r, ins, db, kind);
  }

  lemma {:induction false} TotalZero(ins: seq<Input>, count: Input -> int)
    requires forall i :: count(i) >= 0
    ensures Total(ins, count) >= 0
    ensures Total(ins, count) == 0 <==> forall j :: 0 <= j < |ins| ==> count(ins[j]) == 0
  {
    if ins != [] {
      var front := ins[..|ins|-1];
      TotalZero(front, count);
      assert forall j :: 0 <= j < |front| ==> front[j] == ins[j];
    }
  }

  predicate NoColonRequests(r: Resources, ins: seq<Input>, db: string, kind: Kind) {
    forall j :: 0 <= j < |ins| && ColonPage(r, ins[j]) ==> Counted(r, ins[j], db, kind) == 0
  }

  lemma ColonRequestsZero(r: Resources, ins: seq<Input>, db: string, kind: Kind)
    ensures ColonRequests(r, ins, db, kind) == 0 <==> NoColonRequests(r, ins, db, kind)
  {
    var count := ColonCount(r, db, kind);
    forall i ensures count(i) >= 0 { CountedOnce(r, i, db, kind); }
    TotalZero(ins, count);
    assert forall i :: count(i) == if ColonPage(r, i) then Counted(r, i, db, kind) else 0;
  }

  lemma CountedOnce(r: Resources, i: Input, db: string, kind: Kind)
    ensures 0 <= Counted(r, i, db, kind) <= 1
  {
    if ShareOf(r, i.msg).Some? { ShareKinds(r, i.msg, kind); }
  }

  /** Every request whose page begins with a colon is counted among the modules. */
  lemma ColonPageCounts(r: Resources, i: Input)
    requires i.msg.Log? && !i.msg.ignored && IsModule(PageOf(i.msg.action, i.msg.logjamAction))
    ensures ColonPage(r, i) && Counted(r, i, i.db, Backend) == 1
  {
    assert LogShare(r, i.msg).value.spaces[0] == PageOf(i.msg.action, i.msg.logjamAction);
  }

  /** So with a request for ":x#y" the counts of pages and modules differ. */
  lemma ColonPagesOccur(r: Resources, db: string)
    ensures !NoColonRequests(r, [Input(db, Log(false, Some(":x#y"), None, 0, map[], {}, None))], db, Backend)
  {
    var i := Input(db, Log(false, Some(":x#y"), None, 0, map[], {}, None));
    assert ":x#y"[2] == '#';
    assert PageOf(i.msg.action, i.msg.logjamAction) == ":x#y";
    ColonPageCounts(r, i);
    assert [i][0] == i;
  }
}
