/** The processor object: hash tables of counters that every message updates in place. */
module Processor {
  import opened Merging
  import opened KeyCodec
  import opened Increments
  import opened ProcessorModel

  /** find_bucket_index: the pointer walk over the bucket limits. */
  method FindBucketIndex(value: real) returns (i: nat)
    ensures i == BucketIndex(value)
  {
    i := 0;
    while i + 1 < HISTOGRAM_SIZE && BUCKETS[i] as real < value
      invariant i < HISTOGRAM_SIZE && BucketIndex(value) == BucketFrom(value, i)
    {
      i := i + 1;
    }
  }

  // ----- tables of counters

  /** All counters have the same number of metrics. */
  ghost predicate Uniform(table: map<string, Incs>, size: nat) {
    forall k :: k in table ==> |table[k].metrics| == size
  }

  /** Adds to the stored counters, or stores a copy. */
  method AddCounters(table: map<string, Incs>, key: string, increments: Counters, size: nat)
    returns (r: map<string, Incs>)
    requires Uniform(table, size) && |increments.metrics| == size
    ensures Uniform(r, size)
    ensures r == AddAt(AddIncs, table, key, increments.Value())
  {
    if key in table {
      var stored := new Counters.Of(table[key]);
      stored.Add(increments);
      r := table[key := stored.Value()];
    } else {
      var copy := increments.Clone();
      r := table[key := copy.Value()];
    }
  }

  // ----- tables of arrays

  ghost predicate Sized(table: map<string, seq<int>>, size: nat) {
    forall k :: k in table ==> |table[k]| == size
  }

  /** One more in one cell of the array under a key; a new array starts with zeros. */
  method CountAt(table: map<string, seq<int>>, key: string, i: nat, size: nat) returns (r: map<string, seq<int>>)
    requires Sized(table, size) && i < size
    ensures Sized(r, size)
    ensures r == AddAt(AddCounts, table, key, Unit(i, size))
  {
    var stored := if key in table then table[key] else seq(size, _ => 0);
    var counted := stored[i := stored[i] + 1];
    assert counted == if key in table then AddCounts(table[key], Unit(i, size)) else Unit(i, size);
    r := table[key := counted];
  }

  class State {
    const resources: Resources
    var requestCount: int
    var modules: set<string>
    var totals: map<string, Incs>
    var minutes: map<string, Incs>
    var quants: map<string, seq<int>>
    var histograms: map<string, seq<int>>
    var agents: map<string, Agent>

    ghost predicate Valid()
      reads this
    {
      && Uniform(totals, |resources.names|) && Uniform(minutes, |resources.names|)
      && Sized(quants, |resources.names|) && Sized(histograms, HISTOGRAM_SIZE)
    }

    ghost function Value(): (p: Proc)
      reads this
    {
      Proc(requestCount, modules, totals, minutes, quants, histograms, agents)
    }

    /** processor_new */
    constructor (resources: Resources)
      ensures Valid() && Value() == EMPTY_PROC && this.resources == resources
    {
      this.resources := resources;
      requestCount, modules := 0, {};
      totals, minutes, quants, histograms, agents := map[], map[], map[], map[], map[];
    }

    /** A processor looked up in the parser's table. */
    constructor Of(resources: Resources, p: Proc)
      requires Uniform(p.totals, |resources.names|) && Uniform(p.minutes, |resources.names|)
      requires Sized(p.quants, |resources.names|) && Sized(p.histograms, HISTOGRAM_SIZE)
      ensures Valid() && Value() == p && this.resources == resources
    {
      this.resources := resources;
      requestCount, modules := p.requests, p.modules;
      totals, minutes, quants, histograms, agents := p.totals, p.minutes, p.quants, p.histograms, p.agents;
    }

    /** processor_add_totals */
    method AddTotals(ns: string, increments: Counters)
      requires Valid() && |increments.metrics| == |resources.names|
      modifies this`totals
      ensures Valid()
      ensures totals == AddAt(AddIncs, old(totals), ns, increments.Value())
    {
      totals := AddCounters(totals, ns, increments, |resources.names|);
    }

    /** processor_add_minutes */
    method AddMinutes(ns: string, minute: nat, increments: Counters)
      requires Valid() && |increments.metrics| == |resources.names|
      modifies this`minutes
      ensures Valid()
      ensures minutes == AddAt(AddIncs, old(minutes), MinuteKey(minute, ns), increments.Value())
    {
      minutes := AddCounters(minutes, MinuteKey(minute, ns), increments, |resources.names|);
    }

    /** processor_add_quants */
    method AddQuants(page: string, increments: Counters)
      requires Valid() && |increments.metrics| == |resources.names|
      modifies this`quants
      ensures Valid()
      ensures quants == AddAll(AddCounts, old(quants), EachQuant(resources, page, increments.metrics, 0))
    {
      var n := |resources.names|;
      ghost var all := EachQuant(resources, page, increments.metrics, 0);
      for i := 0 to n
        invariant Sized(quants, n)
        invariant AddAll(AddCounts, quants, EachQuant(resources, page, increments.metrics, i)) ==
                  AddAll(AddCounts, old(quants), all)
      {
        var val := increments.metrics[i].val;
        var kind := QuantKind(resources, i);
        if val > 0.0 && kind.Some? {
          ghost var before := quants;
          var (c, scale) := kind.value;
          var b := FindBucketIndex(val / scale as real);
          var q := BUCKETS[b] * scale;
          quants := CountAt(quants, QuantKey(c, q, page), i, n);
          quants := CountAt(quants, QuantKey(c, q, ALL_PAGES), i, n);
          AddAllTwo(AddCounts, before, (QuantKey(c, q, page), Unit(i, n)), (QuantKey(c, q, ALL_PAGES), Unit(i, n)),
                    EachQuant(resources, page, increments.metrics, i + 1));
        }
      }
    }

    /** processor_add_histogram: refuses a zero time. */
    method AddHistogram(ns: string, minute: nat, resource: string, timeIndex: nat, increments: Counters)
      requires Valid() && timeIndex < |increments.metrics|
      modifies this`histograms
      ensures Valid()
      ensures var time := increments.metrics[timeIndex].val;
              histograms ==
              if time == 0.0 then old(histograms)
              else AddAt(AddCounts, old(histograms), HistogramKey(minute, resource, ns),
                         Unit(BucketIndex(time), HISTOGRAM_SIZE))
    {
      var time := increments.metrics[timeIndex].val;
      if time != 0.0 {
        var i := FindBucketIndex(time);
        histograms := CountAt(histograms, HistogramKey(minute, resource, ns), i, HISTOGRAM_SIZE);
      }
    }

    /** processor_add_agent and processor_add_user_agent */
    method AddAgents(es: seq<(string, Agent)>)
      requires |es| <= 1
      modifies this`agents
      ensures agents == AddAll(AddAgent, old(agents), es)
    {
      if es != [] {
        var (name, stats) := es[0];
        agents := agents[name := if name in agents then AddAgent(agents[name], stats) else stats];
        assert es[1..] == [];
      }
    }

    /** The counters of a request: one of the three counts, the metrics of its fields and its tags. */
    method NewIncrements(fields: map<string, real>, backend: int, page: int, ajax: int, tags: map<Tag, int>,
                         more: map<Tag, int>)
      returns (increments: Counters)
      ensures fresh(increments)
      ensures increments.Value() == Incs(backend, page, ajax, Filled(resources.names, fields), tags + more)
    {
      increments := new Counters(|resources.names|);
      increments.backend, increments.page, increments.ajax := backend, page, ajax;
      increments.FillMetrics(resources.names, fields);
      increments.FillOthers(tags);
      increments.FillOthers(more);
      assert map[] + tags == tags;
    }

    /** processor_add_request */
    method AddRequest(m: Message)
      requires Valid() && m.Log? && ValidResources(resources)
      modifies this
      ensures Valid()
      ensures Value() == Apply(old(Value()), EffectOf(resources, m)).(requests := old(requestCount))
    {
      if m.ignored { return; }
      var t := TimeOf(m.fields, "total_time");
      TimeIsMetric(resources, m.fields);
      var increments := NewIncrements(LogFields(resources, m.fields), 1, 0, 0, Scores(Apdex, t), NamedTags(m.tags));
      LogEffect(resources, m);
      AddCounted(PageOf(m.action, m.logjamAction), m.minute, increments, "total_time", resources.totalTime,
                 BackendAgent(m.agent));
    }

    /** A request with its module and its user agent. */
    method AddCounted(page: string, minute: nat, increments: Counters, resource: string, timeIndex: nat,
                      agent: seq<(string, Agent)>)
      requires Valid() && |increments.metrics| == |resources.names| && |agent| <= 1
      requires timeIndex < |increments.metrics| && increments.metrics[timeIndex].val != 0.0
      modifies this
      ensures Valid()
      ensures var share := RequestShare(page, minute, old(increments.Value()), resource,
                                        old(increments.metrics)[timeIndex].val);
              Value() == Apply(old(Value()), Counted(resources, share, page, agent)).(requests := old(requestCount))
    {
      modules := modules + {ModuleOf(page)};
      AddEverywhere(page, minute, increments, resource, timeIndex);
      AddAgents(agent);
      ghost var share := RequestShare(page, minute, old(increments.Value()), resource,
                                      old(increments.metrics)[timeIndex].val);
      WithModulesAndAgents(old(Value()), ShareEffect(resources, share), {ModuleOf(page)}, agent);
    }

    /** processor_add_frontend_data after its timing checks */
    method AddFrontendData(m: Message) returns (reason: DropReason)
      requires Valid() && m.FrontendPage? && ValidResources(resources)
      modifies this
      ensures Valid()
      ensures Value() == Apply(old(Value()), EffectOf(resources, m)).(requests := old(requestCount))
      ensures reason == Verdict(m.early, m.fields, "page_time")
    {
      reason := m.early;
      if reason == AcceptedMsg {
        var page := PageOf(m.action, m.logjamAction);
        modules := modules + {ModuleOf(page)};
        var t := TimeOf(m.fields, "page_time");
        if t > OUTLIER_THRESHOLD_MS {
          reason := Outlier;
        } else {
          TimeIsMetric(resources, m.fields);
          var increments := NewIncrements(FrontendFields(m.fields, "page_time"), 0, 1, 0, Scores(Fapdex, t),
                                          Scores(Papdex, m.apdexTime));
          AddEverywhere(page, m.minute, increments, "page_time", resources.pageTime);
        }
      }
      AddAgents(FrontendAgent(m.agent, reason));
      ghost var e := if reason == AcceptedMsg then ShareEffect(resources, ShareOf(resources, m).value) else NO_EFFECT;
      WithModulesAndAgents(old(Value()), e, ModulesOf(m), AgentsOf(m));
    }

    /** processor_add_ajax_data after its timing checks */
    method AddAjaxData(m: Message) returns (reason: DropReason)
      requires Valid() && m.FrontendAjax? && ValidResources(resources)
      modifies this
      ensures Valid()
      ensures Value() == Apply(old(Value()), EffectOf(resources, m)).(requests := old(requestCount))
      ensures reason == Verdict(m.early, m.fields, "ajax_time")
    {
      reason := m.early;
      if reason == AcceptedMsg {
        var page := PageOf(m.action, m.logjamAction);
        modules := modules + {ModuleOf(page)};
        var t := TimeOf(m.fields, "ajax_time");
        if t > OUTLIER_THRESHOLD_MS {
          reason := Outlier;
        } else {
          TimeIsMetric(resources, m.fields);
          var increments := NewIncrements(FrontendFields(m.fields, "ajax_time"), 0, 0, 1, Scores(Fapdex, t),
                                          Scores(Xapdex, t));
          AddEverywhere(page, m.minute, increments, "ajax_time", resources.ajaxTime);
        }
      }
      AddAgents(FrontendAgent(m.agent, reason));
      ghost var e := if reason == AcceptedMsg then ShareEffect(resources, ShareOf(resources, m).value) else NO_EFFECT;
      WithModulesAndAgents(old(Value()), e, ModulesOf(m), AgentsOf(m));
    }

    /** processor_add_js_exception */
    method AddJsException(m: Message)
      requires Valid() && m.JsException?
      modifies this
      ensures Valid()
      ensures Value() == Apply(old(Value()), EffectOf(resources, m)).(requests := old(requestCount))
    {
      if m.description == "" { return; }
      var page := JsPageOf(m.logjamAction);
      modules := modules + {ModuleOf(page)};
      var increments := JsIncrements(m.tag);
      AddJsSpaces(page, m.minute, increments);
      WithModulesAndAgents(old(Value()), ShareEffect(resources, ShareOf(resources, m).value), ModulesOf(m),
                           AgentsOf(m));
    }

    method JsIncrements(tag: string) returns (increments: Counters)
      ensures fresh(increments)
      ensures increments.Value() == Incs(0, 0, 0, seq(|resources.names|, _ => NO_METRIC), map[Named(tag) := 1])
    {
      increments := new Counters(|resources.names|);
      increments.FillOthers(map[Named(tag) := 1]);
      assert map[] + map[Named(tag) := 1] == map[Named(tag) := 1];
    }

    method AddJsSpaces(page: string, minute: nat, increments: Counters)
      requires Valid() && |increments.metrics| == |resources.names|
      modifies this`totals, this`minutes
      ensures Valid()
      ensures totals == AddAll(AddIncs, old(totals), EachTotal(JsSpaces(page), increments.Value()))
      ensures minutes == AddAll(AddIncs, old(minutes), EachMinute(JsSpaces(page), minute, increments.Value()))
    {
      AddToSpace([], ALL_PAGES, minute, increments, totals, minutes);
      ghost var spaces := [] + [ALL_PAGES];
      if !Contains(page, UNKNOWN_METHOD) {
        AddToSpace(spaces, page, minute, increments, old(totals), old(minutes));
        spaces := spaces + [page];
      }
      if ModuleOf(page) != "Unknown" {
        AddToSpace(spaces, ModuleOf(page), minute, increments, old(totals), old(minutes));
        spaces := spaces + [ModuleOf(page)];
      }
      assert spaces == JsSpaces(page);
    }

    /** One more namespace, after `done` have been added to the tables `t` and `n`. */
    method AddToSpace(ghost done: seq<string>, ns: string, minute: nat, increments: Counters,
                      ghost t: map<string, Incs>, ghost n: map<string, Incs>)
      requires Valid() && |increments.metrics| == |resources.names|
      requires totals == AddAll(AddIncs, t, EachTotal(done, increments.Value()))
      requires minutes == AddAll(AddIncs, n, EachMinute(done, minute, increments.Value()))
      modifies this`totals, this`minutes
      ensures Valid()
      ensures totals == AddAll(AddIncs, t, EachTotal(done + [ns], increments.Value()))
      ensures minutes == AddAll(AddIncs, n, EachMinute(done + [ns], minute, increments.Value()))
    {
      ghost var incs := increments.Value();
      AddTotals(ns, increments);
      AddMinutes(ns, minute, increments);
      AddAllSnoc(AddIncs, t, EachTotal(done, incs), (ns, incs));
      AddAllSnoc(AddIncs, n, EachMinute(done, minute, incs), (MinuteKey(minute, ns), incs));
      assert EachTotal(done + [ns], incs) == EachTotal(done, incs) + [(ns, incs)];
      assert EachMinute(done + [ns], minute, incs) == EachMinute(done, minute, incs) + [(MinuteKey(minute, ns), incs)];
    }

    /** The parser's dispatch: every message counts, most update the tables. */
    method Process(m: Message)
      requires Valid() && ValidResources(resources)
      modifies this
      ensures Valid()
      ensures Value() == Apply(old(Value()), EffectOf(resources, m))
    {
      requestCount := requestCount + 1;
      match m
      case Log(_, _, _, _, _, _, _) => AddRequest(m);
      case JsException(_, _, _, _) => AddJsException(m);
      case Event =>
      case FrontendPage(_, _, _, _, _, _, _) => var _ := AddFrontendData(m);
      case FrontendAjax(_, _, _, _, _, _) => var _ := AddAjaxData(m);
    }

    /** The totals, minutes, quants and histograms of one request. */
    method AddEverywhere(page: string, minute: nat, increments: Counters, resource: string, timeIndex: nat)
      requires Valid() && |increments.metrics| == |resources.names|
      requires timeIndex < |increments.metrics| && increments.metrics[timeIndex].val != 0.0
      modifies this`totals, this`minutes, this`quants, this`histograms
      ensures Valid()
      ensures var share := RequestShare(page, minute, old(increments.Value()), resource,
                                        old(increments.metrics)[timeIndex].val);
              Value() == Apply(old(Value()), ShareEffect(resources, share)).(requests := old(requestCount))
    {
      AddIncrements(page, ModuleOf(page), minute, increments);
      AddQuants(page, increments);
      AddAllHistograms(page, ModuleOf(page), minute, resource, timeIndex, increments);
    }

    method AddIncrements(page: string, m: string, minute: nat, increments: Counters)
      requires Valid() && |increments.metrics| == |resources.names|
      modifies this`totals, this`minutes
      ensures Valid()
      ensures var spaces := [page, m, ALL_PAGES];
              && totals == AddAll(AddIncs, old(totals), EachTotal(spaces, increments.Value()))
              && minutes == AddAll(AddIncs, old(minutes), EachMinute(spaces, minute, increments.Value()))
    {
      AddAllTotals(page, m, increments);
      AddAllMinutes(page, m, minute, increments);
    }

    method AddAllTotals(page: string, m: string, increments: Counters)
      requires Valid() && |increments.metrics| == |resources.names|
      modifies this`totals
      ensures Valid()
      ensures totals == AddAll(AddIncs, old(totals), EachTotal([page, m, ALL_PAGES], increments.Value()))
    {
      ghost var es := EachTotal([page, m, ALL_PAGES], increments.Value());
      AddAllThree(AddIncs, totals, es);
      AddTotals(page, increments);
      AddTotals(m, increments);
      AddTotals(ALL_PAGES, increments);
    }

    method AddAllMinutes(page: string, m: string, minute: nat, increments: Counters)
      requires Valid() && |increments.metrics| == |resources.names|
      modifies this`minutes
      ensures Valid()
      ensures minutes == AddAll(AddIncs, old(minutes), EachMinute([page, m, ALL_PAGES], minute, increments.Value()))
    {
      ghost var es := EachMinute([page, m, ALL_PAGES], minute, increments.Value());
      AddAllThree(AddIncs, minutes, es);
      AddMinutes(page, minute, increments);
      AddMinutes(m, minute, increments);
      AddMinutes(ALL_PAGES, minute, increments);
    }

    method AddAllHistograms(page: string, m: string, minute: nat, resource: string, timeIndex: nat,
                            increments: Counters)
      requires Valid() && timeIndex < |increments.metrics| && increments.metrics[timeIndex].val != 0.0
      modifies this`histograms
      ensures Valid()
      ensures histograms == AddAll(AddCounts, old(histograms),
                                   EachHistogram([page, m, ALL_PAGES], minute, resource,
                                                 increments.metrics[timeIndex].val))
    {
      ghost var es := EachHistogram([page, m, ALL_PAGES], minute, resource, increments.metrics[timeIndex].val);
      AddAllThree(AddCounts, histograms, es);
      AddHistogram(page, minute, resource, timeIndex, increments);
      AddHistogram(m, minute, resource, timeIndex, increments);
      AddHistogram(ALL_PAGES, minute, resource, timeIndex, increments);
    }
  }

  function Counted(r: Resources, share: Share, page: string, agent: seq<(string, Agent)>): (e: Effect) {
    ShareEffect(r, share).(modules := {ModuleOf(page)}, agents := agent)
  }

  lemma LogEffect(r: Resources, m: Message)
    requires m.Log? && !m.ignored
    ensures EffectOf(r, m) ==
            Counted(r, LogShare(r, m).value, PageOf(m.action, m.logjamAction), BackendAgent(m.agent))
  {
  }

  lemma WithModulesAndAgents(p: Proc, e: Effect, modules: set<string>, agents: seq<(string, Agent)>)
    requires e.modules == {} && e.agents == []
    ensures Apply(p, e.(modules := modules, agents := agents)) ==
            Apply(p.(modules := p.modules + modules), e).(agents := AddAll(AddAgent, p.agents, agents))
  {
  }

  /** The time that goes into the histograms is the metric of the same name, and never zero. */
  lemma TimeIsMetric(r: Resources, fields: map<string, real>)
    requires ValidResources(r)
    ensures Filled(r.names, LogFields(r, fields))[r.totalTime].val == TimeOf(fields, "total_time")
    ensures Filled(r.names, FrontendFields(fields, "page_time"))[r.pageTime].val == TimeOf(fields, "page_time")
    ensures Filled(r.names, FrontendFields(fields, "ajax_time"))[r.ajaxTime].val == TimeOf(fields, "ajax_time")
  {
    assert "total_time"[0] == 't' && "other_time"[0] == 'o' && "allocated_memory"[0] == 'a';
    assert "frontend_time"[0] == 'f';
    assert "page_time"[0] == 'p' && "ajax_time"[0] == 'a';
  }

  lemma AddAllTwo<V>(f: (V, V) -> V, m: map<string, V>, a: (string, V), b: (string, V), rest: seq<(string, V)>)
    ensures AddAll(f, m, [a, b] + rest) == AddAll(f, AddAt(f, AddAt(f, m, a.0, a.1), b.0, b.1), rest)
  {
    var es := [a, b] + rest;
    assert es[1..] == [b] + rest && es[1..][1..] == rest;
    assert AddAll(f, m, es) == AddAll(f, AddAt(f, m, a.0, a.1), es[1..]);
  }

  lemma {:induction false} AddAllSnoc<V>(f: (V, V) -> V, m: map<string, V>, es: seq<(string, V)>, e: (string, V))
    ensures AddAll(f, m, es + [e]) == AddAt(f, AddAll(f, m, es), e.0, e.1)
    decreases |es|
  {
    if es == [] {
      assert [e][1..] == [];
      assert es + [e] == [e];
    } else {
      assert (es + [e])[1..] == es[1..] + [e];
      AddAllSnoc(f, AddAt(f, m, es[0].0, es[0].1), es[1..], e);
    }
  }

  lemma AddAllThree<V>(f: (V, V) -> V, m: map<string, V>, es: seq<(string, V)>)
    requires |es| == 3
    ensures AddAll(f, m, es) == AddAt(f, AddAt(f, AddAt(f, m, es[0].0, es[0].1), es[1].0, es[1].1), es[2].0, es[2].1)
  {
    AddAllTwo(f, m, es[0], es[1], [es[2]]);
    assert es == [es[0], es[1]] + [es[2]];
    assert [es[2]][1..] == [];
  }
}
