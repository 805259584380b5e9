/** The adders: loops that drain one hash table into another. */
module Adder {
  import opened Merging
  import opened Increments
  import opened ProcessorModel
  import opened Processor

  /** While `rest` is still to be drained, the target holds the merge for all other keys. */
  ghost predicate Draining<V>(f: (V, V) -> V, target: map<string, V>, source: map<string, V>, rest: map<string, V>,
                              r: map<string, V>)
  {
    && (forall k :: k in rest ==> k in source && rest[k] == source[k])
    && (forall k :: At(r, k) == if k in rest then At(target, k) else Join(f, At(target, k), At(source, k)))
  }

  lemma DrainOne<V>(f: (V, V) -> V, target: map<string, V>, source: map<string, V>, rest: map<string, V>,
                    r: map<string, V>, key: string, v: V)
    requires Draining(f, target, source, rest, r) && key in rest
    requires v == if key in r then f(r[key], rest[key]) else rest[key]
    ensures Draining(f, target, source, rest - {key}, r[key := v])
  {
    assert At(r, key) == At(target, key);
    forall k
      ensures At(r[key := v], k) ==
              if k in rest - {key} then At(target, k) else Join(f, At(target, k), At(source, k))
    {
      if k != key { assert At(r[key := v], k) == At(r, k); }
    }
  }

  lemma Drained<V>(f: (V, V) -> V, target: map<string, V>, source: map<string, V>, r: map<string, V>)
    requires Draining(f, target, source, map[], r)
    ensures r == Merge(f, target, source)
  {
    SameMap(r, Merge(f, target, source));
  }

  /** The inner loop of merge_quants and merge_histograms. */
  method AddArray(dest: seq<int>, source: seq<int>) returns (sum: seq<int>)
    requires |dest| == |source|
    ensures sum == AddCounts(dest, source)
  {
    sum := dest;
    for i := 0 to |source|
      invariant |sum| == |dest|
      invariant forall j :: 0 <= j < |dest| ==> sum[j] == if j < i then dest[j] + source[j] else dest[j]
    {
      var c := source[i];
      if c != 0 {
        sum := sum[i := sum[i] + c];
      }
    }
  }

  /** merge_quants and merge_histograms */
  method MergeCounts(target: map<string, seq<int>>, source: map<string, seq<int>>, size: nat)
    returns (r: map<string, seq<int>>)
    requires Sized(target, size) && Sized(source, size)
    ensures Sized(r, size) && r == Merge(AddCounts, target, source)
  {
    r := target;
    var rest := source;
    while rest != map[]
      invariant Sized(r, size) && Draining(AddCounts, target, source, rest, r)
      decreases |rest|
    {
      var key :| key in rest;
      var v;
      if key in r {
        v := AddArray(r[key], rest[key]);
      } else {
        v := rest[key];
      }
      DrainOne(AddCounts, target, source, rest, r, key, v);
      r, rest := r[key := v], rest - {key};
    }
    Drained(AddCounts, target, source, r);
  }

  /** merge_increments */
  method MergeIncrements(target: map<string, Incs>, source: map<string, Incs>, size: nat) returns (r: map<string, Incs>)
    requires Uniform(target, size) && Uniform(source, size)
    ensures Uniform(r, size) && r == Merge(AddIncs, target, source)
  {
    r := target;
    var rest := source;
    while rest != map[]
      invariant Uniform(r, size) && Draining(AddIncs, target, source, rest, r)
      decreases |rest|
    {
      var ns :| ns in rest;
      var v;
      if ns in r {
        var dest := new Counters.Of(r[ns]);
        var addend := new Counters.Of(rest[ns]);
        dest.Add(addend);
        v := dest.Value();
      } else {
        v := rest[ns];
      }
      DrainOne(AddIncs, target, source, rest, r, ns, v);
      r, rest := r[ns := v], rest - {ns};
    }
    Drained(AddIncs, target, source, r);
  }

  ghost predicate Reasons(agents: map<string, Agent>) {
    forall k :: k in agents ==> |agents[k].reasons| == NUM_REASONS
  }

  /** merge_agents */
  method MergeAgents(target: map<string, Agent>, source: map<string, Agent>) returns (r: map<string, Agent>)
    requires Reasons(target) && Reasons(source)
    ensures Reasons(r) && r == Merge(AddAgent, target, source)
  {
    r := target;
    var rest := source;
    while rest != map[]
      invariant Reasons(r) && Draining(AddAgent, target, source, rest, r)
      decreases |rest|
    {
      var agent :| agent in rest;
      var v;
      if agent in r {
        var dest, addend := r[agent], rest[agent];
        var reasons := AddArray(dest.reasons, addend.reasons);
        v := Agent(dest.backend + addend.backend, dest.frontend + addend.frontend,
                              dest.dropped + addend.dropped, reasons);
      } else {
        v := rest[agent];
      }
      DrainOne(AddAgent, target, source, rest, r, agent, v);
      r, rest := r[agent := v], rest - {agent};
    }
    Drained(AddAgent, target, source, r);
  }

  ghost predicate Shaped(p: Proc, size: nat) {
    && Uniform(p.totals, size) && Uniform(p.minutes, size)
    && Sized(p.quants, size) && Sized(p.histograms, HISTOGRAM_SIZE)
    && Reasons(p.agents)
  }

  ghost predicate ShapedTable(t: Table, size: nat) {
    forall db :: db in t ==> Shaped(t[db], size)
  }

  /** Two processors of the same database. */
  method MergeProcessor(dest: Proc, source: Proc, size: nat) returns (p: Proc)
    requires Shaped(dest, size) && Shaped(source, size)
    ensures Shaped(p, size) && p == MergeProc(dest, source)
  {
    var totals := MergeIncrements(dest.totals, source.totals, size);
    var minutes := MergeIncrements(dest.minutes, source.minutes, size);
    var quants := MergeCounts(dest.quants, source.quants, size);
    var histograms := MergeCounts(dest.histograms, source.histograms, HISTOGRAM_SIZE);
    var agents := MergeAgents(dest.agents, source.agents);
    p := Proc(dest.requests + source.requests, dest.modules + source.modules, totals, minutes, quants, histograms,
              agents);
  }

  /** merge_processors of the adder: the source table is drained into the target. */
  method MergeProcessors(target: Table, source: Table, size: nat) returns (r: Table)
    requires ShapedTable(target, size) && ShapedTable(source, size)
    ensures ShapedTable(r, size) && r == MergeTables(target, source)
  {
    r := target;
    var rest := source;
    while rest != map[]
      invariant ShapedTable(r, size) && Draining(MergeProc, target, source, rest, r)
      decreases |rest|
    {
      var db :| db in rest;
      var v;
      if db in r {
        v := MergeProcessor(r[db], rest[db], size);
      } else {
        v := rest[db];
      }
      DrainOne(MergeProc, target, source, rest, r, db, v);
      r, rest := r[db := v], rest - {db};
    }
    Drained(MergeProc, target, source, r);
  }

  // ----- all tables have the shape the adders rely on

  lemma {:induction false} QuantsShaped(r: Resources, page: string, metrics: seq<Metric>, k: nat)
    requires k <= |metrics|
    ensures forall i :: 0 <= i < |EachQuant(r, page, metrics, k)| ==> |EachQuant(r, page, metrics, k)[i].1| == |metrics|
    decreases |metrics| - k
  {
    if k < |metrics| {
      QuantsShaped(r, page, metrics, k + 1);
    }
  }

  lemma ShareShaped(r: Resources, m: Message)
    requires ShareOf(r, m).Some?
    ensures |ShareOf(r, m).value.incs.metrics| == |r.names|
  {
  }

  lemma EffectShaped(r: Resources, m: Message)
    ensures var e, n := EffectOf(r, m), |r.names|;
            && (forall i :: 0 <= i < |e.totals| ==> |e.totals[i].1.metrics| == n)
            && (forall i :: 0 <= i < |e.minutes| ==> |e.minutes[i].1.metrics| == n)
            && (forall i :: 0 <= i < |e.quants| ==> |e.quants[i].1| == n)
            && (forall i :: 0 <= i < |e.histograms| ==> |e.histograms[i].1| == HISTOGRAM_SIZE)
            && (forall i :: 0 <= i < |e.agents| ==> |e.agents[i].1.reasons| == NUM_REASONS)
  {
    match ShareOf(r, m)
    case None =>
    case Some(s) =>
      ShareShaped(r, m);
      if s.spaces != [] { QuantsShaped(r, s.spaces[0], s.incs.metrics, 0); }
  }

  lemma ApplyShaped(r: Resources, p: Proc, m: Message)
    requires Shaped(p, |r.names|)
    ensures Shaped(Apply(p, EffectOf(r, m)), |r.names|)
  {
    var e, n := EffectOf(r, m), |r.names|;
    EffectShaped(r, m);
    AddAllKeeps(AddIncs, p.totals, e.totals, (i: Incs) => |i.metrics| == n);
    AddAllKeeps(AddIncs, p.minutes, e.minutes, (i: Incs) => |i.metrics| == n);
    AddAllKeeps(AddCounts, p.quants, e.quants, (c: seq<int>) => |c| == n);
    AddAllKeeps(AddCounts, p.histograms, e.histograms, (c: seq<int>) => |c| == HISTOGRAM_SIZE);
    AddAllKeeps(AddAgent, p.agents, e.agents, (a: Agent) => |a.reasons| == NUM_REASONS);
  }

  lemma {:induction false} FoldShaped(r: Resources, ins: seq<Input>)
    ensures ShapedTable(Fold(r, ins), |r.names|)
  {
    if ins != [] {
      var n := |ins| - 1;
      FoldShaped(r, ins[..n]);
      var t := Fold(r, ins[..n]);
      ApplyShaped(r, if ins[n].db in t then t[ins[n].db] else EMPTY_PROC, ins[n].msg);
    }
  }
}
