/** Replaying a dump file: which messages are forwarded, and when the replay stops. */
module DumpReplay {
  import opened Options
  import opened Bytes
  import opened DumpFile

  /** A replay in progress: the file, what is left of it, what was counted and whether it was stopped. */
  datatype Replay = Replay(file: seq<Byte>, rest: seq<Byte>, counted: nat, stopped: bool)

  function Begin(file: seq<Byte>): (p: Replay) { Replay(file, file, 0, false) }

  /**
   * One message with credit: its five words and its content are counted. When
   * the count is the size of the file, the replay starts over or stops.
   */
  function Next(order: Order, looping: bool, p: Replay): (p': Replay) {
    var r := Loaded(order, p.rest);
    if r.frames.None? then p.(rest := r.rest)
    else
      var counted := p.counted + 5 * WORD + ContentSize(r.frames.value);
      if counted != |p.file| then p.(rest := r.rest, counted := counted)
      else if looping then Begin(p.file)
      else p.(rest := r.rest, counted := counted, stopped := true)
  }

  /** The state of logjam-replay. */
  class Replayer {
    const file: File
    const size: nat
    const looping: bool
    var credit: int
    var bytesRead: nat
    var interrupted: bool

    ghost predicate Valid()
      reads this, file
    {
      file.Valid() && size == |file.content|
    }

    ghost function Value(): (p: Replay)
      requires Valid()
      reads this, file
    {
      Replay(file.content, file.Rest(), bytesRead, interrupted)
    }

    constructor (file: File, looping: bool, credit: int)
      requires file.position == 0
      ensures Valid() && Value() == Begin(file.content)
      ensures this.file == file && this.looping == looping && this.credit == credit
    {
      this.file, size, this.looping, this.credit := file, |file.content|, looping, credit;
      bytesRead, interrupted := 0, false;
    }

    /** Forwards the next message of any file, if there is credit. */
    method Consume() returns (m: Option<seq<Frame>>)
      requires Valid() && !interrupted
      modifies this`credit, this`bytesRead, this`interrupted, file`position
      ensures Valid() && credit == old(credit) - 1
      ensures old(credit) <= 0 ==> m == None && Value() == old(Value())
      ensures old(credit) > 0 ==>
                m == Loaded(file.order, old(file.Rest())).frames && Value() == Next(file.order, looping, old(Value()))
    {
      credit := credit - 1;
      if credit + 1 <= 0 {
        return None;
      }
      m := file.Load();
      if m == None {
        return;
      }
      bytesRead := bytesRead + 5 * WORD + ContentSize(m.value);
      if bytesRead == size {
        if looping {
          bytesRead := 0;
          file.position := 0;
        } else {
          interrupted := true;
        }
      }
    }
  }

  type Stepper = Replay -> (Option<seq<Frame>>, Replay)

  /** A step with credit: the message it forwards, if any, and where the replay stands then. */
  function Step(order: Order, looping: bool): (step: Stepper) {
    (p: Replay) => (Loaded(order, p.rest).frames, Next(order, looping, p))
  }

  /** The messages forwarded in up to `n` steps of a replay, and where it stands then. */
  function Steps(step: Stepper, p: Replay, n: nat): (r: (seq<seq<Frame>>, Replay))
    decreases n
  {
    if n == 0 || p.stopped then ([], p)
    else
      var (m, p') := step(p);
      var (more, z) := Steps(step, p', n - 1);
      ((if m.Some? then [m.value] else []) + more, z)
  }

  /** A replay goes on from where it stands. */
  lemma {:induction false} StepsMore(step: Stepper, p: Replay, a: nat, b: nat)
    ensures var (first, q) := Steps(step, p, a);
            var (more, z) := Steps(step, q, b);
            Steps(step, p, a + b) == (first + more, z)
    decreases a
  {
    if a == 0 || p.stopped {
      var more := Steps(step, p, b).0;
      assert [] + more == more;
    } else {
      var (m, p') := step(p);
      StepsMore(step, p', a - 1, b);
      var first, more := Steps(step, p', a - 1).0, Steps(step, Steps(step, p', a - 1).1, b).0;
      var one := if m.Some? then [m.value] else [];
      assert one + (first + more) == (one + first) + more;
    }
  }

  /** A replay that passes through some states. */
  lemma {:induction false} StepsAlong(step: Stepper, ps: seq<Replay>, ms: seq<seq<Frame>>)
    requires |ps| == |ms| + 1
    requires forall i :: 0 <= i < |ms| ==> !ps[i].stopped && step(ps[i]) == (Some(ms[i]), ps[i + 1])
    ensures Steps(step, ps[0], |ms|) == (ms, ps[|ms|])
    decreases |ms|
  {
    if ms != [] {
      var qs, rest := ps[1..], ms[1..];
      forall i | 0 <= i < |rest| ensures !qs[i].stopped && step(qs[i]) == (Some(rest[i]), qs[i + 1]) {
        assert qs[i] == ps[i + 1] && qs[i + 1] == ps[i + 1 + 1] && rest[i] == ms[i + 1];
      }
      StepsAlong(step, qs, rest);
      assert [ms[0]] + ms[1..] == ms;
    }
  }

  /** A replay that gets nothing and stays where it is. */
  lemma {:induction false} StepsNowhere(step: Stepper, p: Replay, n: nat)
    requires step(p) == (None, p)
    ensures Steps(step, p, n) == ([], p)
    decreases n
  {
    var none: seq<seq<Frame>> := [];
    if n > 0 && !p.stopped {
      StepsNowhere(step, p, n - 1);
      assert none + none == none;
    }
  }

  lemma StepsEnd(step: Stepper, p: Replay, a: nat, n: nat)
    requires a <= n && var z := Steps(step, p, a).1; z.stopped || step(z) == (None, z)
    ensures Steps(step, p, n) == Steps(step, p, a)
  {
    var (first, z) := Steps(step, p, a);
    StepsMore(step, p, a, n - a);
    if !z.stopped { StepsNowhere(step, z, n - a); }
    assert first + [] == first;
  }

  /** The replay of a whole file. */
  function Forwarded(order: Order, looping: bool, file: seq<Byte>, n: nat): (r: (seq<seq<Frame>>, Replay)) {
    Steps(Step(order, looping), Begin(file), n)
  }

  /** What the replayer counts for some messages. */
  function Tally(ms: seq<Message>): (n: nat) {
    if ms == [] then 0 else 5 * WORD + ContentSize(ms[0]) + Tally(ms[1..])
  }

  function FrameCount(ms: seq<Message>): (n: nat) { if ms == [] then 0 else |ms[0]| + FrameCount(ms[1..]) }

  /** By how much the count is off: a word for each frame more or less than four. */
  lemma {:induction false} TallyIsOff(order: Order, ms: seq<Message>)
    requires Loadable(ms)
    ensures |SavedAll(order, ms)| == Tally(ms) + WORD * (FrameCount(ms) - 4 * |ms|)
  {
    if ms != [] {
      SavedSize(order, ms[0]);
      TallyIsOff(order, ms[1..]);
    }
  }

  lemma {:induction false} TallyGrows(ms: seq<Message>, k: nat)
    requires k <= |ms|
    ensures Tally(ms[..k]) + Tally(ms[k..]) == Tally(ms)
    ensures k < |ms| ==> Tally(ms[..k]) < Tally(ms)
  {
    if k == 0 {
      assert ms[..0] == [] && ms[0..] == ms;
    } else {
      assert ms[..k][1..] == ms[1..][..k - 1] && ms[k..] == ms[1..][k - 1..];
      TallyGrows(ms[1..], k - 1);
    }
  }

  /** The count meets the size of the file after `k` of the messages in it. */
  predicate MeetsAt(order: Order, ms: seq<Message>, k: nat)
    requires k <= |ms|
  {
    Tally(ms[..k]) == |SavedAll(order, ms)|
  }

  /**
   * The count meets the size of the file after the last message and not before
   * if and only if messages have four frames on average.
   */
  lemma MeetsAtEnd(order: Order, ms: seq<Message>)
    requires Loadable(ms)
    ensures (forall k :: 0 <= k <= |ms| ==> (MeetsAt(order, ms, k) <==> k == |ms|)) <==> FrameCount(ms) == 4 * |ms|
  {
    TallyIsOff(order, ms);
    assert ms[..|ms|] == ms;
    if FrameCount(ms) == 4 * |ms| {
      forall k | 0 <= k <= |ms| ensures MeetsAt(order, ms, k) <==> k == |ms| { TallyGrows(ms, k); }
    } else {
      assert !MeetsAt(order, ms, |ms|);
    }
  }

  /** The replay of a file stands after `k` of its messages. */
  function After(order: Order, ms: seq<Message>, k: nat): (p: Replay)
    requires k <= |ms|
  {
    Replay(SavedAll(order, ms), SavedAll(order, ms[k..]), Tally(ms[..k]), false)
  }

  /** Where a replay stands when it has come to the message `k`. */
  function Arrival(order: Order, looping: bool, ms: seq<Message>, k: nat): (p: Replay)
    requires k <= |ms|
  {
    if !MeetsAt(order, ms, k) then After(order, ms, k)
    else if looping then Begin(SavedAll(order, ms))
    else After(order, ms, k).(stopped := true)
  }

  lemma {:induction false} TallyOneMore(ms: seq<Message>, k: nat)
    requires k < |ms|
    ensures Tally(ms[..k + 1]) == Tally(ms[..k]) + 5 * WORD + ContentSize(ms[k])
  {
    TallyGrows(ms[..k + 1], k);
    assert ms[..k + 1][..k] == ms[..k] && ms[..k + 1][k..] == [ms[k]] && [ms[k]][1..] == [];
  }

  lemma LoadsNext(order: Order, ms: seq<Message>, k: nat)
    requires Loadable(ms) && k < |ms|
    ensures Loaded(order, SavedAll(order, ms[k..])) == Reading(Some(ms[k]), SavedAll(order, ms[k + 1..]))
  {
    assert ms[k..][0] == ms[k] && ms[k..][1..] == ms[k + 1..];
    LoadSaved(order, ms[k], SavedAll(order, ms[k + 1..]));
  }

  lemma NextLoaded(order: Order, looping: bool, p: Replay, m: seq<Frame>, rest: seq<Byte>)
    requires Loaded(order, p.rest) == Reading(Some(m), rest)
    ensures var counted := p.counted + 5 * WORD + ContentSize(m);
            Step(order, looping)(p) ==
            (Some(m), if counted != |p.file| then p.(rest := rest, counted := counted)
                      else if looping then Begin(p.file)
                      else p.(rest := rest, counted := counted, stopped := true))
  {
  }

  lemma NextAtEnd(order: Order, looping: bool, p: Replay)
    requires p.rest == []
    ensures Step(order, looping)(p) == (None, p)
  {
    assert Loaded(order, p.rest) == Reading(None, []);
  }

  lemma NextMessage(order: Order, looping: bool, ms: seq<Message>, k: nat)
    requires Loadable(ms) && k < |ms|
    ensures Step(order, looping)(After(order, ms, k)) == (Some(ms[k]), Arrival(order, looping, ms, k + 1))
  {
    var file, rest := SavedAll(order, ms), SavedAll(order, ms[k + 1..]);
    var p := Replay(file, SavedAll(order, ms[k..]), Tally(ms[..k]), false);
    LoadsNext(order, ms, k);
    TallyOneMore(ms, k);
    NextLoaded(order, looping, p, ms[k], rest);
    assert p == After(order, ms, k);
    assert After(order, ms, k + 1) == p.(rest := rest, counted := Tally(ms[..k + 1]));
  }

  /** Where a replay stands after each of the first messages. */
  function Stations(order: Order, looping: bool, ms: seq<Message>, end: nat): (ps: seq<Replay>)
    requires end <= |ms|
    ensures |ps| == end + 1 && ps[end] == Arrival(order, looping, ms, end)
    ensures forall i :: 0 <= i < end ==> ps[i] == After(order, ms, i)
  {
    seq(end, i requires 0 <= i < end => After(order, ms, i)) + [Arrival(order, looping, ms, end)]
  }

  /** Until the count first meets the size of the file, messages are forwarded one after the other. */
  lemma ForwardsUntil(order: Order, looping: bool, ms: seq<Message>, end: nat)
    requires Loadable(ms) && 0 < end <= |ms|
    requires forall j :: 0 < j < end ==> !MeetsAt(order, ms, j)
    ensures Forwarded(order, looping, SavedAll(order, ms), end) == (ms[..end], Arrival(order, looping, ms, end))
  {
    var ps, step := Stations(order, looping, ms, end), Step(order, looping);
    forall i | 0 <= i < end ensures !ps[i].stopped && step(ps[i]) == (Some(ms[..end][i]), ps[i + 1]) {
      NextMessage(order, looping, ms, i);
    }
    assert ms[0..] == ms && ms[..0] == [];
    assert ps[0] == Begin(SavedAll(order, ms));
    StepsAlong(step, ps, ms[..end]);
  }

  /** Where the count first meets the size of the file. */
  ghost predicate FirstAt(order: Order, ms: seq<Message>, k: nat) {
    0 < k <= |ms| && MeetsAt(order, ms, k) && forall j :: 0 < j < k ==> !MeetsAt(order, ms, j)
  }

  /**
   * Once the count meets the size of the file a replay is over, and what comes
   * later in the file is not forwarded in any number of steps.
   */
  lemma StopsAt(order: Order, ms: seq<Message>, k: nat, n: nat)
    requires Loadable(ms) && FirstAt(order, ms, k) && n >= k
    ensures var (sent, z) := Forwarded(order, false, SavedAll(order, ms), n); sent == ms[..k] && z.stopped
  {
    ForwardsUntil(order, false, ms, k);
    StepsEnd(Step(order, false), Begin(SavedAll(order, ms)), k, n);
  }

  /** If that never happens, all messages are forwarded, and the replay never stops. */
  lemma NeverStops(order: Order, ms: seq<Message>, n: nat)
    requires Loadable(ms) && ms != [] && n >= |ms|
    requires forall j :: 0 < j <= |ms| ==> !MeetsAt(order, ms, j)
    ensures var (sent, z) := Forwarded(order, false, SavedAll(order, ms), n); sent == ms && !z.stopped
  {
    var step, z := Step(order, false), After(order, ms, |ms|);
    ForwardsUntil(order, false, ms, |ms|);
    assert ms[|ms|..] == [] && ms[..|ms|] == ms && !MeetsAt(order, ms, |ms|);
    NextAtEnd(order, false, z);
    StepsEnd(step, Begin(SavedAll(order, ms)), |ms|, n);
  }

  lemma {:induction false} FindFirst(order: Order, ms: seq<Message>, end: nat) returns (k: nat)
    requires end <= |ms|
    ensures k > 0 ==> FirstAt(order, ms, k) && k <= end
    ensures k == 0 ==> forall j :: 0 < j <= end ==> !MeetsAt(order, ms, j)
  {
    k := 0;
    if end > 0 {
      k := FindFirst(order, ms, end - 1);
      if k == 0 && MeetsAt(order, ms, end) { k := end; }
    }
  }

  /** A replay forwards a whole dump and then stops if and only if its messages have four frames on average. */
  lemma ReplaysExactly(order: Order, ms: seq<Message>, n: nat)
    requires Loadable(ms) && ms != [] && n >= |ms|
    ensures var (sent, z) := Forwarded(order, false, SavedAll(order, ms), n);
            sent == ms && z.stopped <==> FrameCount(ms) == 4 * |ms|
  {
    MeetsAtEnd(order, ms);
    TallyIsOff(order, ms);
    assert ms[..|ms|] == ms;
    var k := FindFirst(order, ms, |ms|);
    if k == 0 {
      NeverStops(order, ms, n);
      assert !MeetsAt(order, ms, |ms|);
    } else {
      StopsAt(order, ms, k, n);
      assert MeetsAt(order, ms, k) && |ms[..k]| == k;
    }
  }

  /** An endless replay of such a dump forwards it over and over. */
  lemma LoopsExactly(order: Order, ms: seq<Message>)
    requires Loadable(ms) && ms != [] && FrameCount(ms) == 4 * |ms|
    ensures Forwarded(order, true, SavedAll(order, ms), |ms|) == (ms, Begin(SavedAll(order, ms)))
  {
    MeetsAtEnd(order, ms);
    ForwardsUntil(order, true, ms, |ms|);
    assert MeetsAt(order, ms, |ms|) && ms[..|ms|] == ms;
  }

  // ----- a replay that stops early

  lemma {:induction false} TallyOfSame(m: Message, n: nat)
    ensures Tally(seq(n, _ => m)) == 5 * WORD * n + n * ContentSize(m)
    ensures FrameCount(seq(n, _ => m)) == n * |m|
  {
    if n > 0 {
      var ms := seq(n, _ => m);
      assert ms[0] == m && ms[1..] == seq(n - 1, _ => m);
      TallyOfSame(m, n - 1);
      assert n * |m| == |m| + (n - 1) * |m| && n * ContentSize(m) == ContentSize(m) + (n - 1) * ContentSize(m);
    }
  }

  const THREE_FRAMES: Message := [[0, 0], [0, 0, 0], [0, 0, 0]]

  /** Of six messages with three frames each only five are forwarded. */
  lemma LosesTheSixth(order: Order, n: nat)
    requires n >= 5
    ensures var ms: seq<Message> := seq(6, _ => THREE_FRAMES);
            && Loadable(ms)
            && Forwarded(order, false, SavedAll(order, ms), n).0 == ms[..5]
  {
    var ms: seq<Message> := seq(6, _ => THREE_FRAMES);
    assert ContentSize(THREE_FRAMES) == 8 by {
      assert THREE_FRAMES[1..] == [[0, 0, 0], [0, 0, 0]] && THREE_FRAMES[1..][1..] == [[0, 0, 0]];
    }
    TallyOfSame(THREE_FRAMES, 6);
    TallyIsOff(order, ms);
    forall j | 0 <= j <= 6 ensures Tally(ms[..j]) == j * 48 {
      assert ms[..j] == seq(j, _ => THREE_FRAMES);
      TallyOfSame(THREE_FRAMES, j);
    }
    StopsAt(order, ms, 5, n);
  }
}
