/** Finite paths of a transition relation. */
module Paths {
  /** The states `p` lead from `s` to `s'`. */
  ghost predicate Leads<S>(next: (S, S) -> bool, s: S, p: seq<S>, s': S)
    decreases |p|
  {
    if p == [] then s' == s else next(s, p[0]) && Leads(next, p[0], p[1..], s')
  }

  ghost predicate Reaches<S(!new)>(next: (S, S) -> bool, s: S, s': S) {
    exists p :: Leads(next, s, p, s')
  }

  lemma {:induction false} Concatenated<S>(next: (S, S) -> bool, s: S, p: seq<S>, t: S, q: seq<S>, u: S)
    requires Leads(next, s, p, t) && Leads(next, t, q, u)
    ensures Leads(next, s, p + q, u)
    decreases |p|
  {
    if p == [] {
      assert p + q == q;
    } else {
      assert (p + q)[0] == p[0] && (p + q)[1..] == p[1..] + q;
      Concatenated(next, p[0], p[1..], t, q, u);
    }
  }

  lemma Then<S(!new)>(next: (S, S) -> bool, s: S, t: S, u: S)
    requires Reaches(next, s, t) && Reaches(next, t, u)
    ensures Reaches(next, s, u)
  {
    var p :| Leads(next, s, p, t);
    var q :| Leads(next, t, q, u);
    Concatenated(next, s, p, t, q, u);
  }

  lemma Stay<S(!new)>(next: (S, S) -> bool, s: S)
    ensures Reaches(next, s, s)
  {
    assert Leads(next, s, [], s);
  }

  lemma One<S(!new)>(next: (S, S) -> bool, s: S, s': S)
    requires next(s, s')
    ensures Reaches(next, s, s')
  {
    assert [s'][1..] == [];
    assert Leads(next, s', [], s');
    assert Leads(next, s, [s'], s');
  }

  lemma {:induction false} LeadsKeep<S(!new)>(next: (S, S) -> bool, good: S -> bool, s: S, p: seq<S>, s': S)
    requires forall a, b :: good(a) && next(a, b) ==> good(b)
    requires good(s) && Leads(next, s, p, s')
    ensures good(s')
    decreases |p|
  {
    if p != [] { LeadsKeep(next, good, p[0], p[1..], s'); }
  }

  lemma ReachesKeep<S(!new)>(next: (S, S) -> bool, good: S -> bool, s: S, s': S)
    requires forall a, b :: good(a) && next(a, b) ==> good(b)
    requires good(s) && Reaches(next, s, s')
    ensures good(s')
  {
    var p :| Leads(next, s, p, s');
    LeadsKeep(next, good, s, p, s');
  }

  /** A sequence of states from a start, each of which follows from the one before it. */
  ghost predicate Chain<S>(next: (S, S) -> bool, start: S -> bool, ss: seq<S>) {
    var m := |ss| - 1;
    ss != [] && if m == 0 then start(ss[0]) else Chain(next, start, ss[..m]) && next(ss[m - 1], ss[m])
  }

  lemma {:induction false} Extended<S>(next: (S, S) -> bool, start: S -> bool, ss: seq<S>, p: seq<S>, s': S)
    requires Chain(next, start, ss) && Leads(next, ss[|ss| - 1], p, s')
    ensures Chain(next, start, ss + p) && (ss + p)[|ss + p| - 1] == s'
    decreases |p|
  {
    if p == [] {
      assert ss + p == ss;
    } else {
      var longer := ss + [p[0]];
      assert longer[..|ss|] == ss && longer[|ss| - 1] == ss[|ss| - 1] && longer[|ss|] == p[0];
      Extended(next, start, longer, p[1..], s');
      assert longer + p[1..] == ss + p;
    }
  }

  /** A chain can be continued to whatever its last state reaches. */
  lemma Continued<S(!new)>(next: (S, S) -> bool, start: S -> bool, ss: seq<S>, s': S) returns (more: seq<S>)
    requires Chain(next, start, ss) && Reaches(next, ss[|ss| - 1], s')
    ensures Chain(next, start, ss + more) && (ss + more)[|ss + more| - 1] == s'
  {
    more :| Leads(next, ss[|ss| - 1], more, s');
    Extended(next, start, ss, more, s');
  }
}
