/** What a single message leaves in an empty table. */
module Singles {
  import opened Options
  import opened Merging
  import opened KeyCodec
  import opened Increments
  import opened ProcessorModel

  ghost predicate Distinct(ss: seq<string>) {
    forall i, j :: 0 <= i < j < |ss| ==> ss[i] != ss[j]
  }

  lemma SpacesDistinct(r: Resources, m: Message)
    requires ShareOf(r, m).Some?
    ensures Distinct(ShareOf(r, m).value.spaces)
  {
    if m.JsException? {
      JsSpacesDistinct(JsPageOf(m.logjamAction));
    } else {
      RequestSpacesDistinct(PageOf(m.action, m.logjamAction));
    }
  }

  lemma RequestSpacesDistinct(page: string)
    requires '#' in page
    ensures Distinct([page, ModuleOf(page), ALL_PAGES])
  {
    NamespacesDiffer(page);
  }

  lemma JsSpacesDistinct(page: string)
    requires '#' in page
    ensures Distinct(JsSpaces(page))
  {
    NamespacesDiffer(page);
  }

  // ----- entries under distinct namespaces

  lemma EachTotalAt(spaces: seq<string>, incs: Incs, ns: string)
    requires Distinct(spaces)
    ensures At(AddAll(AddIncs, map[], EachTotal(spaces, incs)), ns) == if ns in spaces then Some(incs) else None
  {
    AddAllDistinct(AddIncs, map[], EachTotal(spaces, incs));
  }

  lemma EachMinuteAt(spaces: seq<string>, minute: nat, incs: Incs, m: nat, ns: string)
    requires Distinct(spaces)
    ensures At(AddAll(AddIncs, map[], EachMinute(spaces, minute, incs)), MinuteKey(m, ns)) ==
            if m == minute && ns in spaces then Some(incs) else None
  {
    var es := EachMinute(spaces, minute, incs);
    forall i, j | 0 <= i < j < |es| ensures es[i].0 != es[j].0 {
      if es[i].0 == es[j].0 { MinuteKeyInjective(minute, spaces[i], minute, spaces[j]); }
    }
    AddAllDistinct(AddIncs, map[], es);
    forall i | 0 <= i < |es| && es[i].0 == MinuteKey(m, ns) ensures m == minute && ns == spaces[i] {
      MinuteKeyInjective(minute, spaces[i], m, ns);
    }
    if m == minute && ns in spaces {
      var i :| 0 <= i < |spaces| && spaces[i] == ns;
      assert es[i].0 == MinuteKey(m, ns);
    }
  }

  lemma EachHistogramAt(spaces: seq<string>, minute: nat, name: string, t: real, m: nat, resource: string, ns: string)
    requires Distinct(spaces) && HyphenFree(name) && HyphenFree(resource)
    ensures At(AddAll(AddCounts, map[], EachHistogram(spaces, minute, name, t)), HistogramKey(m, resource, ns)) ==
            if m == minute && resource == name && ns in spaces then Some(Unit(BucketIndex(t), HISTOGRAM_SIZE)) else None
  {
    var es := EachHistogram(spaces, minute, name, t);
    forall i, j | 0 <= i < j < |es| ensures es[i].0 != es[j].0 {
      if es[i].0 == es[j].0 { HistogramKeyInjective(minute, name, spaces[i], minute, name, spaces[j]); }
    }
    AddAllDistinct(AddCounts, map[], es);
    forall i | 0 <= i < |es| && es[i].0 == HistogramKey(m, resource, ns)
      ensures m == minute && resource == name && ns == spaces[i]
    {
      HistogramKeyInjective(minute, name, spaces[i], m, resource, ns);
    }
    if m == minute && resource == name && ns in spaces {
      var i :| 0 <= i < |spaces| && spaces[i] == ns;
      assert es[i].0 == HistogramKey(m, resource, ns);
    }
  }

  // ----- one message

  function Single(r: Resources, m: Message): (p: Proc) { Apply(EMPTY_PROC, EffectOf(r, m)) }

  lemma SingleIsFold(r: Resources, i: Input)
    ensures Fold(r, [i]) == map[i.db := Single(r, i.msg)]
  {
    assert [i][..0] == [];
  }

  /** A message's counters are stored once under each of its namespaces, and nowhere else. */
  lemma SingleTotals(r: Resources, m: Message, ns: string)
    ensures At(Single(r, m).totals, ns) ==
            match ShareOf(r, m) case None => None case Some(s) => if ns in s.spaces then Some(s.incs) else None
  {
    match ShareOf(r, m)
    case None =>
    case Some(s) =>
      SpacesDistinct(r, m);
      EachTotalAt(s.spaces, s.incs, ns);
  }

  lemma SingleMinutes(r: Resources, m: Message, minute: nat, ns: string)
    ensures At(Single(r, m).minutes, MinuteKey(minute, ns)) ==
            match ShareOf(r, m)
            case None => None
            case Some(s) => if minute == s.minute && ns in s.spaces then Some(s.incs) else None
  {
    match ShareOf(r, m)
    case None =>
    case Some(s) =>
      SpacesDistinct(r, m);
      EachMinuteAt(s.spaces, s.minute, s.incs, minute, ns);
  }

  lemma SingleHistograms(r: Resources, m: Message, minute: nat, resource: string, ns: string)
    requires HyphenFree(resource)
    ensures At(Single(r, m).histograms, HistogramKey(minute, resource, ns)) ==
            match ShareOf(r, m)
            case None => None
            case Some(s) =>
              if s.timed.Some? && resource == s.timed.value.0 && minute == s.minute && ns in s.spaces
              then Some(Unit(BucketIndex(s.timed.value.1), HISTOGRAM_SIZE)) else None
  {
    match ShareOf(r, m)
    case None =>
    case Some(s) =>
      if s.timed.Some? {
        SpacesDistinct(r, m);
        EachHistogramAt(s.spaces, s.minute, s.timed.value.0, s.timed.value.1, minute, resource, ns);
      }
  }
}
