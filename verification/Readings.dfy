/** The processor reads messages as `Messages` says: its functions compute what those predicates describe. */
module Readings {
  import opened Options
  import opened Increments
  import opened ProcessorModel
  import opened Messages

  // ----- pages and modules

  function PageFor(m: Message): (page: string)
    requires !m.Event?
    ensures '#' in page
  {
    if m.JsException? then JsPageOf(m.logjamAction) else PageOf(m.action, m.logjamAction)
  }

  lemma MethodCompletes(given: string, page: string)
    ensures Completes(given, page) <==> page == WithMethod(given)
  {
  }

  /** The page is the action, else the logjam action, else unknown, completed with a method. */
  lemma PageIsRead(m: Message, page: string)
    requires !m.Event?
    ensures PageIs(m, page) <==> page == PageFor(m)
  {
    var unknown := "Unknown#unknown_method";
    assert unknown[7] == '#' && unknown[|unknown| - 1] == 'd';
    if m.JsException? {
      if m.logjamAction.Some? { MethodCompletes(m.logjamAction.value, page); }
    } else if m.action.Some? {
      MethodCompletes(m.action.value, page);
    } else if m.logjamAction.Some? {
      MethodCompletes(m.logjamAction.value, page);
    }
  }

  /** The index of the first occurrence. */
  lemma FirstIndex(s: string, c: char, i: nat)
    requires i < |s| && s[i] == c && c !in s[..i]
    ensures IndexOf(s, c) == i
  {
    var j := IndexOf(s, c);
    assert forall k :: 0 <= k < i ==> s[k] == s[..i][k];
    assert forall k :: 0 <= k < j ==> s[k] == s[..j][k];
  }

  lemma ModuleIsPrefix(page: string, c: char, ns: string)
    requires c in page
    ensures ns == "::" + page[..IndexOf(page, c)] <==>
            "::" <= ns && ns[2..] < page && c !in ns[2..] && page[|ns| - 2] == c
  {
    assert page[..|page|] == page;
    if "::" <= ns && ns[2..] < page && c !in ns[2..] && page[|ns| - 2] == c {
      FirstIndex(page, c, |ns| - 2);
      assert ns == ns[..2] + ns[2..];
    }
    if ns == "::" + page[..IndexOf(page, c)] {
      assert ns[2..] == page[..IndexOf(page, c)];
    }
  }

  lemma ModuleIsRead(page: string, ns: string)
    requires '#' in page
    ensures ModuleIs(page, ns) <==> ns == ModuleOf(page)
  {
    if ':' in page {
      ModuleIsPrefix(page, ':', ns);
    } else {
      ModuleIsPrefix(page, '#', ns);
    }
  }

  lemma {:induction false} ContainsIsRead(s: string)
    ensures Contains(s, UNKNOWN_METHOD) <==> NoMethodIn(s)
  {
    if UNKNOWN_METHOD <= s {
      assert s[0..] == s;
    } else if s != [] {
      ContainsIsRead(s[1..]);
      if Contains(s[1..], UNKNOWN_METHOD) {
        var k: nat :| k <= |s[1..]| && UNKNOWN_METHOD <= s[1..][k..];
        assert s[1..][k..] == s[k + 1..];
      }
      if NoMethodIn(s) {
        var k: nat :| k <= |s| && UNKNOWN_METHOD <= s[k..];
        assert k > 0 by { assert s[0..] == s; }
        assert s[1..][k - 1..] == s[k..];
      }
    }
  }

  lemma JsSpacesHold(page: string, ns: string)
    requires '#' in page
    ensures ns in JsSpaces(page) <==>
            ns == ALL_PAGES || ns == ModuleOf(page) || (ns == page && !Contains(page, UNKNOWN_METHOD))
  {
    assert ModuleOf(page)[0] == ':' && "Unknown"[0] == 'U';
  }

  lemma RequestSpaces(r: Resources, m: Message)
    requires Request(m)
    ensures ShareOf(r, m).value.spaces == [PageFor(m), ModuleOf(PageFor(m)), ALL_PAGES]
  {
  }

  lemma InSpaces(m: Message, ns: string)
    requires !m.Event?
    ensures var page := PageFor(m);
            InSpace(m, ns) <==>
              || ns == ALL_PAGES || ns == ModuleOf(page)
              || (ns == page && (m.JsException? ==> !Contains(page, UNKNOWN_METHOD)))
  {
    var page := PageFor(m);
    forall p ensures PageIs(m, p) <==> p == page { PageIsRead(m, p); }
    ModuleIsRead(page, ns);
    ContainsIsRead(page);
  }

  lemma SpacesAreRead(r: Resources, m: Message, ns: string)
    requires ShareOf(r, m).Some?
    ensures InSpace(m, ns) <==> ns in ShareOf(r, m).value.spaces
  {
    InSpaces(m, ns);
    if m.JsException? {
      JsSpacesHold(PageFor(m), ns);
    } else {
      RequestSpaces(r, m);
    }
  }

  // ----- counters

  /** A message has a share if and only if it is a counted request or a script error. */
  lemma ShareIsRead(r: Resources, m: Message)
    ensures ShareOf(r, m).Some? <==> Request(m) || ScriptError(m)
    ensures ShareOf(r, m).Some? ==>
              var s := ShareOf(r, m).value;
              && s.minute == m.minute
              && s.incs.backend == (if BackendRequest(m) then 1 else 0)
              && s.incs.page == (if PageRequest(m) then 1 else 0)
              && s.incs.ajax == (if AjaxRequest(m) then 1 else 0)
  {
  }

  lemma ScoresAreRead(family: Family, t: real, tag: Tag)
    ensures tag in Scores(family, t) <==> tag.Score? && tag.family == family && AtLevel(family, tag.level, t)
    ensures tag in Scores(family, t) ==> Scores(family, t)[tag] == 1
  {
  }

  lemma UnionOfOnes(a: map<Tag, int>, b: map<Tag, int>, tag: Tag)
    requires tag in a ==> a[tag] == 1
    requires tag in b ==> b[tag] == 1
    ensures (tag in a + b <==> tag in a || tag in b) && (tag in a + b ==> (a + b)[tag] == 1)
  {
  }

  lemma LogTags(t: real, tags: set<string>, tag: Tag)
    ensures var others := Scores(Apdex, t) + NamedTags(tags);
            && (tag in others ==> others[tag] == 1)
            && (tag in others <==>
                match tag
                case Score(family, level) => family == Apdex && AtLevel(Apdex, level, t)
                case Named(name) => name in tags)
  {
    ScoresAreRead(Apdex, t, tag);
    UnionOfOnes(Scores(Apdex, t), NamedTags(tags), tag);
  }

  lemma FrontendTags(page: real, second: Family, time: real, tag: Tag)
    requires second != Fapdex
    ensures var others := Scores(Fapdex, page) + Scores(second, time);
            && (tag in others ==> others[tag] == 1)
            && (tag in others <==>
                && tag.Score?
                && ((tag.family == Fapdex && AtLevel(Fapdex, tag.level, page)) ||
                    (tag.family == second && AtLevel(second, tag.level, time))))
  {
    ScoresAreRead(Fapdex, page, tag);
    ScoresAreRead(second, time, tag);
    UnionOfOnes(Scores(Fapdex, page), Scores(second, time), tag);
  }

  lemma LogTagged(m: Message, tag: Tag)
    requires BackendRequest(m)
    ensures Tagged(m, tag) <==>
            match tag
            case Score(family, level) => family == Apdex && AtLevel(Apdex, level, TimeOf(m.fields, "total_time"))
            case Named(name) => name in m.tags
  {
  }

  lemma LogTagsAreRead(r: Resources, m: Message, tag: Tag)
    requires BackendRequest(m)
    ensures var others := ShareOf(r, m).value.incs.others;
            (tag in others <==> Tagged(m, tag)) && (tag in others ==> others[tag] == 1)
  {
    LogTagged(m, tag);
    LogTags(TimeOf(m.fields, "total_time"), m.tags, tag);
  }

  lemma FrontendTagsAreRead(r: Resources, m: Message, tag: Tag)
    requires PageRequest(m) || AjaxRequest(m)
    ensures var others := ShareOf(r, m).value.incs.others;
            (tag in others <==> Tagged(m, tag)) && (tag in others ==> others[tag] == 1)
  {
    if m.FrontendPage? {
      FrontendTags(TimeOf(m.fields, "page_time"), Papdex, m.apdexTime, tag);
    } else {
      FrontendTags(TimeOf(m.fields, "ajax_time"), Xapdex, TimeOf(m.fields, "ajax_time"), tag);
    }
  }

  /** Every tag of a message counts once. */
  lemma TagsAreRead(r: Resources, m: Message, tag: Tag)
    requires ShareOf(r, m).Some?
    ensures var others := ShareOf(r, m).value.incs.others;
            (tag in others <==> Tagged(m, tag)) && (tag in others ==> others[tag] == 1)
  {
    ShareIsRead(r, m);
    if BackendRequest(m) {
      LogTagsAreRead(r, m, tag);
    } else if Request(m) {
      FrontendTagsAreRead(r, m, tag);
    }
  }

  // ----- resource values

  lemma {:induction false} SumSnoc(fields: map<string, real>, names: seq<string>, name: string)
    ensures SumOf(fields, names + [name]) == SumOf(fields, names) + if name in fields then fields[name] else 0.0
  {
    if names == [] {
      assert ([] + [name])[1..] == [];
    } else {
      assert (names + [name])[1..] == names[1..] + [name];
      SumSnoc(fields, names[1..], name);
    }
  }

  lemma {:induction false} SumIsRead(fields: map<string, real>, names: seq<string>)
    ensures SumOf(fields["total_time" := Lasting(fields, "total_time")], names) == SumUp(fields, names)
  {
    if names != [] {
      var n := |names| - 1;
      SumIsRead(fields, names[..n]);
      SumSnoc(fields["total_time" := Lasting(fields, "total_time")], names[..n], names[n]);
      assert names == names[..n] + [names[n]];
    }
  }

  function Recorded(v: Option<real>): (m: Metric) {
    match v case None => NO_METRIC case Some(x) => Metric(x, x * x, x)
  }

  lemma LogFieldsAreRead(r: Resources, m: Message, name: string)
    requires BackendRequest(m)
    ensures Value(r, m, name) == Stated(LogFields(r, m.fields), name)
  {
    SumIsRead(m.fields, r.otherTimes);
    assert "total_time"[0] == 't' && "other_time"[0] == 'o' && "allocated_memory"[0] == 'a';
    assert "allocated_objects"[10] == 'o' && "allocated_bytes"[10] == 'b' && "allocated_memory"[10] == 'm';
    assert "allocated_objects"[0] == 'a' && "allocated_bytes"[0] == 'a';
  }

  lemma FilledIsRecorded(names: seq<string>, fields: map<string, real>, i: nat)
    requires i < |names|
    ensures Filled(names, fields)[i] == Recorded(Stated(fields, names[i]))
  {
  }

  /** The metrics of a request record the values of its resources. */
  lemma ValuesAreRead(r: Resources, m: Message, i: nat)
    requires Request(m) && i < |r.names|
    ensures ShareOf(r, m).Some? && |ShareOf(r, m).value.incs.metrics| == |r.names|
    ensures ShareOf(r, m).value.incs.metrics[i] == Recorded(Value(r, m, r.names[i]))
  {
    if m.Log? {
      LogFieldsAreRead(r, m, r.names[i]);
      FilledIsRecorded(r.names, LogFields(r, m.fields), i);
    } else if m.FrontendPage? {
      FilledIsRecorded(r.names, FrontendFields(m.fields, "page_time"), i);
    } else {
      FilledIsRecorded(r.names, FrontendFields(m.fields, "ajax_time"), i);
    }
  }

  // ----- buckets

  lemma LimitStep(k: nat)
    ensures Limit(k + 2) == 10 * Limit(k)
  {
  }

  /** The bucket limits are the powers of ten and three times them. */
  lemma {:induction false} LimitsAreRead(k: nat)
    requires k < HISTOGRAM_SIZE
    ensures BUCKETS[k] == Limit(k)
  {
    if k >= 2 {
      LimitsAreRead(k - 2);
      LimitStep(k - 2);
    } else {
      assert PowerOfTen(0) == 1;
    }
  }

  lemma {:induction false} LimitsGrow(j: nat, k: nat)
    requires j <= k
    ensures Limit(j) <= Limit(k)
    decreases k - j
  {
    if j < k {
      NextLimit(k - 1);
      LimitsGrow(j, k - 1);
    }
  }

  lemma {:induction false} NextLimit(k: nat)
    ensures 0 < Limit(k) < Limit(k + 1)
  {
    if k >= 2 {
      NextLimit(k - 2);
      LimitStep(k - 2);
      LimitStep(k - 1);
    } else {
      assert PowerOfTen(0) == 1 && PowerOfTen(1) == 10;
    }
  }

  lemma ScaledBound(v: real, limit: nat, scale: nat)
    requires scale == 1 || scale == 1024
    ensures limit as real < v / scale as real <==> (limit * scale) as real < v
  {
  }

  /** A value's bucket is the one whose limits enclose it. */
  lemma BucketIsRead(v: real, k: nat, scale: nat)
    requires scale == 1 || scale == 1024
    ensures InBucket(v, k, scale) <==> k == BucketIndex(v / scale as real)
  {
    var x := v / scale as real;
    var b := BucketIndex(x);
    if b + 1 < HISTOGRAM_SIZE {
      BucketBounds(x, 0, b);
      LimitsAreRead(b);
      ScaledBound(v, Limit(b), scale);
    }
    if b > 0 {
      BucketBounds(x, 0, b - 1);
      LimitsAreRead(b - 1);
      ScaledBound(v, Limit(b - 1), scale);
    }
    if k < b && InBucket(v, k, scale) { LowerBucket(v, k, b, scale); }
    if b < k && InBucket(v, b, scale) { LowerBucket(v, b, k, scale); }
  }

  lemma Scaled(a: nat, b: nat, scale: nat)
    requires a <= b
    ensures a * scale <= b * scale
  {
  }

  lemma LowerBucket(v: real, j: nat, k: nat, scale: nat)
    requires InBucket(v, j, scale) && j < k
    ensures !InBucket(v, k, scale)
  {
    LimitsGrow(j, k - 1);
    Scaled(Limit(j), Limit(k - 1), scale);
  }

  lemma QuantKindIsRead(r: Resources, i: nat, kind: char, scale: nat)
    ensures QuantsOf(r, i, kind, scale) <==> QuantKind(r, i) == Some((kind, scale))
  {
  }

  lemma QuantIsRead(r: Resources, i: nat, v: real, kind: char, quant: nat)
    ensures InQuant(r, i, v, kind, quant) <==>
            v > 0.0 && QuantKind(r, i).Some? && QuantKind(r, i).value.0 == kind
            && quant == Quant(v, QuantKind(r, i).value.1)
  {
    forall c, s: nat ensures QuantsOf(r, i, c, s) <==> QuantKind(r, i) == Some((c, s)) { QuantKindIsRead(r, i, c, s); }
    match QuantKind(r, i)
    case None =>
    case Some((c, s)) =>
      forall k: nat ensures InBucket(v, k, s) <==> k == BucketIndex(v / s as real) { BucketIsRead(v, k, s); }
      LimitsAreRead(BucketIndex(v / s as real));
      if v > 0.0 && c == kind && quant == Quant(v, s) {
        var k := BucketIndex(v / s as real);
        assert QuantsOf(r, i, kind, s) && InBucket(v, k, s) && quant == Limit(k) * s;
      }
  }
}
