/** Increments: the counters one namespace accumulates, as values and as the objects the source updates in place. */
module Increments {
  import opened Merging

  datatype Metric = Metric(val: real, valSquared: real, valMax: real)

  datatype Family = Apdex | Fapdex | Papdex | Xapdex

  datatype Level = Happy | Satisfied | Tolerating | Frustrated

  /** A key of the `others` object: an apdex score such as "fapdex.happy", or any other formatted name. */
  datatype Tag = Score(family: Family, level: Level) | Named(name: string)

  datatype Incs = Incs(backend: int, page: int, ajax: int, metrics: seq<Metric>, others: map<Tag, int>)

  const NO_METRIC := Metric(0.0, 0.0, 0.0)

  function Max(a: real, b: real): (m: real) { if a < b then b else a }

  function Plus(a: int, b: int): (c: int) { a + b }

  function AddMetric(a: Metric, b: Metric): (m: Metric) {
    Metric(a.val + b.val, a.valSquared + b.valSquared, Max(a.valMax, b.valMax))
  }

  /** What increments_add makes of two sets of counters. */
  function AddIncs(a: Incs, b: Incs): (c: Incs) {
    Incs(a.backend + b.backend, a.page + b.page, a.ajax + b.ajax,
         Zip(AddMetric, a.metrics, b.metrics), Merge(Plus, a.others, b.others))
  }

  lemma AddIncsLaws()
    ensures Commutes(AddIncs) && Associates(AddIncs)
  {
    forall a, b ensures AddIncs(a, b) == AddIncs(b, a) {
      ZipCommutes(AddMetric, a.metrics, b.metrics);
      MergeCommutes(Plus, a.others, b.others);
    }
    forall a, b, c ensures AddIncs(AddIncs(a, b), c) == AddIncs(a, AddIncs(b, c)) {
      ZipAssociates(AddMetric, a.metrics, b.metrics, c.metrics);
      MergeAssociates(Plus, a.others, b.others, c.others);
    }
  }

  /** increments_fill_metrics on fresh counters: a field that is present is its own sum, square and maximum. */
  function Filled(names: seq<string>, fields: map<string, real>): (ms: seq<Metric>)
    ensures |ms| == |names|
    ensures forall i :: 0 <= i < |names| ==>
              ms[i] == if names[i] in fields
                       then Metric(fields[names[i]], fields[names[i]] * fields[names[i]], fields[names[i]])
                       else NO_METRIC
  {
    seq(|names|, i requires 0 <= i < |names| =>
      if names[i] in fields
      then Metric(fields[names[i]], fields[names[i]] * fields[names[i]], fields[names[i]])
      else NO_METRIC)
  }

  // ----- apdex

  function Thresholds(family: Family): (ts: (real, real, real)) {
    if family == Apdex then (100.0, 500.0, 2000.0) else (500.0, 2000.0, 8000.0)
  }

  /** The keys that the four apdex fill functions set to 1. */
  function Scores(family: Family, time: real): (tags: map<Tag, int>) {
    var (happy, satisfied, tolerating) := Thresholds(family);
    if time < happy then map[Score(family, Happy) := 1, Score(family, Satisfied) := 1]
    else if time < satisfied then map[Score(family, Satisfied) := 1]
    else if time < tolerating then map[Score(family, Tolerating) := 1]
    else map[Score(family, Frustrated) := 1]
  }

  function Count(others: map<Tag, int>, tag: Tag): (n: int) {
    if tag in others then others[tag] else 0
  }

  /** How many requests a family of scores has rated. */
  function Rated(others: map<Tag, int>, family: Family): (n: int) {
    Count(others, Score(family, Satisfied)) + Count(others, Score(family, Tolerating))
    + Count(others, Score(family, Frustrated))
  }

  // ----- the object

  class Counters {
    var backend: int
    var page: int
    var ajax: int
    var metrics: seq<Metric>
    var others: map<Tag, int>

    function Value(): (v: Incs)
      reads this
    {
      Incs(backend, page, ajax, metrics, others)
    }

    /** increments_new: all zero. */
    constructor (size: nat)
      ensures Value() == Incs(0, 0, 0, seq(size, _ => NO_METRIC), map[])
    {
      backend, page, ajax, others := 0, 0, 0, map[];
      metrics := seq(size, _ => NO_METRIC);
    }

    /** The object that a table entry stands for. */
    constructor Of(v: Incs)
      ensures Value() == v
    {
      backend, page, ajax, metrics, others := v.backend, v.page, v.ajax, v.metrics, v.others;
    }

    /** increments_clone */
    method Clone() returns (copy: Counters)
      ensures fresh(copy) && copy.Value() == Value()
    {
      copy := new Counters(|metrics|);
      copy.backend, copy.page, copy.ajax := backend, page, ajax;
      copy.metrics, copy.others := metrics, others;
    }

    method FillMetrics(names: seq<string>, fields: map<string, real>)
      requires metrics == seq(|names|, _ => NO_METRIC)
      modifies this`metrics
      ensures metrics == Filled(names, fields)
    {
      for i := 0 to |names|
        invariant |metrics| == |names|
        invariant forall j :: 0 <= j < i ==> metrics[j] == Filled(names, fields)[j]
        invariant forall j :: i <= j < |names| ==> metrics[j] == NO_METRIC
      {
        if names[i] in fields {
          var v := fields[names[i]];
          metrics := metrics[i := Metric(v, v * v, v)];
        }
      }
    }

    /** Sets the keys of one fill function to 1. */
    method FillOthers(tags: map<Tag, int>)
      modifies this`others
      ensures others == old(others) + tags
    {
      others := others + tags;
    }

    /** increments_add */
    method Add(increments: Counters)
      requires increments != this && |metrics| == |increments.metrics|
      modifies this
      ensures Value() == AddIncs(old(Value()), increments.Value())
    {
      backend := backend + increments.backend;
      page := page + increments.page;
      ajax := ajax + increments.ajax;
      AddMetrics(increments.metrics);
      AddOthers(increments.others);
    }

    method AddMetrics(addends: seq<Metric>)
      requires |metrics| == |addends|
      modifies this`metrics
      ensures metrics == Zip(AddMetric, old(metrics), addends)
    {
      for i := 0 to |addends|
        invariant |metrics| == |addends|
        invariant forall j :: 0 <= j < i ==> metrics[j] == AddMetric(old(metrics)[j], addends[j])
        invariant forall j :: i <= j < |addends| ==> metrics[j] == old(metrics)[j]
      {
        var stored, addend := metrics[i], addends[i];
        stored := stored.(val := stored.val + addend.val, valSquared := stored.valSquared + addend.valSquared);
        if stored.valMax < addend.valMax {
          stored := stored.(valMax := addend.valMax);
        }
        metrics := metrics[i := stored];
      }
    }

    method AddOthers(addends: map<Tag, int>)
      modifies this`others
      ensures others == Merge(Plus, old(others), addends)
    {
      var todo := addends.Keys;
      while todo != {}
        invariant todo <= addends.Keys
        invariant forall k :: At(others, k) ==
                    if k in todo then At(old(others), k) else Join(Plus, At(old(others), k), At(addends, k))
      {
        var key :| key in todo;
        others := others[key := if key in others then others[key] + addends[key] else addends[key]];
        todo := todo - {key};
      }
      SameMap(others, Merge(Plus, old(others), addends));
    }
  }
}
