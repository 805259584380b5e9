/** Saving messages to a dump file and loading them back. */
module DumpFile {
  import opened Options
  import opened Bytes

  type Frame = f: seq<Byte> | |f| < Power(8)
  type Message = m: seq<Frame> | |m| < Power(8)

  const WORD := 8  // sizeof (size_t)

  /** A size_t in the byte order of the host. */
  function Word(order: Order, n: nat): (b: seq<Byte>)
    ensures |b| == WORD
  {
    Store(order, n, WORD)
  }

  // ----- what is written

  /**
   * The frames as zmsg_savex writes them: it stops after the length of an empty frame, which fwrite does
   * not count as written.
   */
  function Frames(order: Order, m: seq<Frame>): (b: seq<Byte>) {
    if m == [] then []
    else if m[0] == [] then Word(order, |m[0]|)
    else Word(order, |m[0]|) + m[0] + Frames(order, m[1..])
  }

  function Saved(order: Order, m: Message): (b: seq<Byte>) { Word(order, |m|) + Frames(order, m) }

  lemma Regroup(a: seq<Byte>, b: seq<Byte>, c: seq<Byte>, d: seq<Byte>)
    ensures a + (b + c + d) == a + b + c + d
    ensures b + c + d + a == b + c + (d + a)
    ensures a + b + [] == a + b
    ensures a + (b + c) == a + b + c
  {
  }

  lemma Header(word: seq<Byte>, body: seq<Byte>, rest: seq<Byte>)
    requires |word| == WORD
    ensures (word + body + rest)[..WORD] == word
    ensures (word + body + rest)[WORD..] == body + rest
    ensures (word + body)[..WORD] == word && (word + body)[WORD..] == body
  {
  }

  lemma FramesAfter(order: Order, before: seq<Byte>, m: seq<Frame>, i: nat)
    requires i < |m|
    ensures m[i] == [] ==> before + Frames(order, m[i..]) == before + Word(order, |m[i]|) + m[i]
    ensures m[i] != [] ==>
              before + Frames(order, m[i..]) == before + Word(order, |m[i]|) + m[i] + Frames(order, m[i + 1..])
  {
    assert m[i..][1..] == m[i + 1..] && m[i..][0] == m[i];
    Regroup(before, Word(order, |m[i]|), m[i], Frames(order, m[i + 1..]));
  }

  predicate NoneEmpty(m: seq<Frame>) {
    forall i :: 0 <= i < |m| ==> m[i] != []
  }

  // ----- what is read

  datatype FrameRead = End | CutOff | Got(frame: Frame, rest: seq<Byte>)

  /** One frame from the front of `b`. A length that is cut off ends the message, data that is cut off spoils it. */
  function ReadFrame(order: Order, b: seq<Byte>): (r: FrameRead) {
    if |b| < WORD then End
    else
      var size := Fetch(order, b[..WORD]);
      StoreFetched(order, b[..WORD]);
      if |b| - WORD < size then CutOff else Got(b[WORD..WORD + size], b[WORD + size..])
  }

  /** What was read, unless it was spoilt, and what is left to read. */
  datatype Reading = Reading(frames: Option<seq<Frame>>, rest: seq<Byte>)

  function Prefixed(frames: seq<Frame>, r: Reading): (r': Reading) {
    if r.frames.None? then r else Reading(Some(frames + r.frames.value), r.rest)
  }

  lemma PrefixedTwice(a: seq<Frame>, b: seq<Frame>, r: Reading)
    ensures Prefixed(a, Prefixed(b, r)) == Prefixed(a + b, r)
    ensures Prefixed([], r) == r
  {
    if r.frames.Some? {
      assert a + (b + r.frames.value) == (a + b) + r.frames.value && [] + r.frames.value == r.frames.value;
    }
  }

  /** Up to `count` frames from the front of `b`. */
  function ReadFrames(order: Order, b: seq<Byte>, count: nat): (r: Reading)
    ensures |r.rest| <= |b|
    decreases count
  {
    if count == 0 then Reading(Some([]), b)
    else
      match ReadFrame(order, b)
      case End => Reading(Some([]), [])
      case CutOff => Reading(None, [])
      case Got(frame, rest) => Prefixed([frame], ReadFrames(order, rest, count - 1))
  }

  /** The message at the front of a file; one without frames counts as none. */
  function Loaded(order: Order, b: seq<Byte>): (r: Reading)
    ensures b != [] ==> |r.rest| < |b|
  {
    if |b| < WORD then Reading(None, [])
    else
      var r := ReadFrames(order, b[WORD..], Fetch(order, b[..WORD]));
      if r.frames == Some([]) then Reading(None, r.rest) else r
  }

  lemma Slices(b: seq<Byte>, size: nat)
    requires |b| >= WORD
    ensures size <= |b| - WORD ==> b[WORD..][..size] == b[WORD..WORD + size] && b[WORD..][size..] == b[WORD + size..]
  {
  }

  /** A file with a position. */
  class File {
    const order: Order
    var content: seq<Byte>
    var position: nat

    constructor (order: Order)
      ensures Valid() && this.order == order && content == [] && position == 0
    {
      this.order, content, position := order, [], 0;
    }

    ghost predicate Valid()
      reads this
    {
      position <= |content|
    }

    ghost function Rest(): (b: seq<Byte>)
      requires Valid()
      reads this
    {
      content[position..]
    }

    /** fwrite of one item at the end of the file: an item of size 0 is not written. */
    method Write(b: seq<Byte>) returns (items: nat)
      modifies this`content
      ensures content == old(content) + b
      ensures items == if b == [] then 0 else 1
    {
      content := content + b;
      items := if b == [] then 0 else 1;
    }

    /** fread of one item: a short read consumes what is left. */
    method Read(size: nat) returns (b: seq<Byte>, items: nat)
      requires Valid()
      modifies this`position
      ensures Valid()
      ensures items == 1 <==> 0 < size <= |old(Rest())|
      ensures size <= |old(Rest())| ==> b == old(Rest())[..size] && Rest() == old(Rest())[size..]
      ensures size > |old(Rest())| ==> b == [] && Rest() == []
      ensures items <= 1
    {
      if position + size <= |content| {
        b, position, items := content[position..position + size], position + size, if size == 0 then 0 else 1;
      } else {
        b, position, items := [], |content|, 0;
      }
    }

    method SaveFrame(frame: Frame) returns (ok: bool)
      modifies this`content
      ensures content == old(content) + Word(order, |frame|) + frame
      ensures ok == (frame != [])
    {
      var items := Write(Word(order, |frame|));
      if items != 1 {
        return false;
      }
      items := Write(frame);
      return items == 1;
    }

    method SaveFrames(m: seq<Frame>) returns (rc: int)
      modifies this`content
      ensures content == old(content) + Frames(order, m)
      ensures rc == if NoneEmpty(m) then 0 else -1
    {
      ghost var target := content + Frames(order, m);
      assert m[0..] == m;
      for i := 0 to |m|
        invariant forall j :: 0 <= j < i ==> m[j] != []
        invariant content + Frames(order, m[i..]) == target
      {
        FramesAfter(order, content, m, i);
        var ok := SaveFrame(m[i]);
        if !ok {
          return -1;
        }
      }
      assert content + [] == content;
      return 0;
    }

    /** zmsg_savex. */
    method Save(m: Message) returns (rc: int)
      modifies this`content
      ensures content == old(content) + Saved(order, m)
      ensures rc == if NoneEmpty(m) then 0 else -1
    {
      var items := Write(Word(order, |m|));
      if items != 1 {
        return -1;
      }
      rc := SaveFrames(m);
      Regroup(old(content), Word(order, |m|), Frames(order, m), []);
    }

    method LoadFrame() returns (r: Option<Frame>, ok: bool)
      requires Valid()
      modifies this`position
      ensures Valid() && |Rest()| <= |old(Rest())|
      ensures match ReadFrame(order, old(Rest()))
              case End => r == None && ok && Rest() == []
              case CutOff => r == None && !ok && Rest() == []
              case Got(frame, rest) => r == Some(frame) && ok && Rest() == rest
    {
      var word, items := Read(WORD);
      if items != 1 {
        return None, true;
      }
      var size := Fetch(order, word);
      StoreFetched(order, word);
      var data;
      data, items := Read(size);
      Slices(old(Rest()), size);
      if size > 0 && items != 1 {
        return None, false;
      }
      return Some(data), true;
    }

    method LoadFrames(count: nat) returns (frames: Option<seq<Frame>>)
      requires Valid()
      modifies this`position
      ensures Valid() && Reading(frames, Rest()) == ReadFrames(order, old(Rest()), count)
    {
      ghost var start := Rest();
      var all: seq<Frame> := [];
      PrefixedTwice([], [], ReadFrames(order, start, count));
      for i := 0 to count
        invariant Valid()
        invariant ReadFrames(order, start, count) == Prefixed(all, ReadFrames(order, Rest(), count - i))
      {
        var frame, whole := LoadFrame();
        if !whole {
          return None;
        }
        if frame == None {
          break;
        }
        PrefixedTwice(all, [frame.value], ReadFrames(order, Rest(), count - i - 1));
        all := all + [frame.value];
      }
      assert all + [] == all;
      return Some(all);
    }

    /** zmsg_loadx. */
    method Load() returns (m: Option<seq<Frame>>)
      requires Valid()
      modifies this`position
      ensures Valid() && Reading(m, Rest()) == Loaded(order, old(Rest()))
    {
      var word, items := Read(WORD);
      if items != 1 {
        return None;
      }
      m := LoadFrames(Fetch(order, word));
      if m == Some([]) {
        m := None;
      }
    }
  }

  // ----- sizes

  function ContentSize(m: seq<Frame>): (n: nat) { if m == [] then 0 else |m[0]| + ContentSize(m[1..]) }

  /** The size of a message with all its frames. */
  function FullSize(m: seq<Frame>): (n: nat) { WORD + WORD * |m| + ContentSize(m) }

  function FullSizes(ms: seq<seq<Frame>>): (n: nat) { if ms == [] then 0 else FullSize(ms[0]) + FullSizes(ms[1..]) }

  predicate OnlyLastEmpty(m: seq<Frame>) {
    forall i :: 0 <= i < |m| - 1 ==> m[i] != []
  }

  lemma {:induction false} FramesSize(order: Order, m: seq<Frame>)
    ensures |Frames(order, m)| <= WORD * |m| + ContentSize(m)
    ensures |Frames(order, m)| == WORD * |m| + ContentSize(m) <==> OnlyLastEmpty(m)
  {
    if m != [] {
      FramesSize(order, m[1..]);
      assert OnlyLastEmpty(m) <==> (m[0] == [] ==> m[1..] == []) && OnlyLastEmpty(m[1..]) by {
        assert forall i :: 0 < i < |m| ==> m[i] == m[1..][i - 1];
      }
    }
  }

  /** A message takes its full size if and only if no frame but the last is empty, and less otherwise. */
  lemma SavedSize(order: Order, m: Message)
    ensures |Saved(order, m)| <= FullSize(m)
    ensures |Saved(order, m)| == FullSize(m) <==> OnlyLastEmpty(m)
  {
    FramesSize(order, m);
  }

  lemma {:induction false} ReadTakes(order: Order, b: seq<Byte>, count: nat)
    ensures var r := ReadFrames(order, b, count);
            r.frames.Some? ==> |b| >= WORD * |r.frames.value| + ContentSize(r.frames.value) + |r.rest|
    decreases count
  {
    if count > 0 {
      match ReadFrame(order, b)
      case End =>
      case CutOff =>
      case Got(frame, rest) =>
        ReadTakes(order, rest, count - 1);
        var r := ReadFrames(order, rest, count - 1);
        if r.frames.Some? { assert ([frame] + r.frames.value)[1..] == r.frames.value; }
    }
  }

  /** Loading a message consumes at least its full size. */
  lemma LoadTakes(order: Order, b: seq<Byte>)
    ensures var r := Loaded(order, b);
            r.frames.Some? ==> r.frames.value != [] && |b| >= FullSize(r.frames.value) + |r.rest|
  {
    if |b| >= WORD { ReadTakes(order, b[WORD..], Fetch(order, b[..WORD])); }
  }

  // ----- round trips

  lemma ReadFirst(order: Order, frame: Frame, rest: seq<Byte>)
    ensures ReadFrame(order, Word(order, |frame|) + frame + rest) == Got(frame, rest)
  {
    var b := Word(order, |frame|) + frame + rest;
    FetchStored(order, |frame|, WORD);
    assert b[..WORD] == Word(order, |frame|);
    assert b[WORD..WORD + |frame|] == frame && b[WORD + |frame|..] == rest;
  }

  lemma ReadMore(order: Order, frame: Frame, rest: seq<Byte>, count: nat)
    ensures ReadFrames(order, Word(order, |frame|) + frame + rest, count + 1) ==
            Prefixed([frame], ReadFrames(order, rest, count))
  {
    ReadFirst(order, frame, rest);
  }

  lemma FirstFrame(order: Order, m: seq<Frame>, rest: seq<Byte>)
    requires m != [] && OnlyLastEmpty(m)
    ensures Frames(order, m) + rest == Word(order, |m[0]|) + m[0] + (Frames(order, m[1..]) + rest)
  {
    assert m[0] == [] ==> m[1..] == [];
    Regroup(rest, Word(order, |m[0]|), m[0], Frames(order, m[1..]));
  }

  lemma {:induction false} ReadOwnFrames(order: Order, m: seq<Frame>, rest: seq<Byte>)
    requires OnlyLastEmpty(m)
    ensures ReadFrames(order, Frames(order, m) + rest, |m|) == Reading(Some(m), rest)
  {
    if m == [] {
      assert Frames(order, m) + rest == rest;
    } else {
      FirstFrame(order, m, rest);
      ReadOwnFrames(order, m[1..], rest);
      ReadMore(order, m[0], Frames(order, m[1..]) + rest, |m| - 1);
      assert [m[0]] + m[1..] == m;
    }
  }

  /** Loading gives back what was saved, and leaves the file at the next message. */
  lemma LoadSaved(order: Order, m: Message, rest: seq<Byte>)
    requires m != [] && OnlyLastEmpty(m)
    ensures Loaded(order, Saved(order, m) + rest) == Reading(Some(m), rest)
  {
    FetchStored(order, |m|, WORD);
    Header(Word(order, |m|), Frames(order, m), rest);
    ReadOwnFrames(order, m, rest);
  }

  /**
   * A saved message can be loaded back, whatever follows it, if and only if it
   * has a frame and no frame but the last is empty. A message with an empty
   * frame is nevertheless reported as not saved (see File.Save).
   */
  lemma SavedCanBeLoaded(order: Order, m: Message, rest: seq<Byte>)
    ensures Loaded(order, Saved(order, m) + rest) == Reading(Some(m), rest) <==> m != [] && OnlyLastEmpty(m)
  {
    if m != [] && OnlyLastEmpty(m) {
      LoadSaved(order, m, rest);
    } else {
      LoadTakes(order, Saved(order, m) + rest);
      SavedSize(order, m);
    }
  }

  // ----- whole files

  function SavedAll(order: Order, ms: seq<Message>): (b: seq<Byte>) {
    if ms == [] then [] else Saved(order, ms[0]) + SavedAll(order, ms[1..])
  }

  /** Everything that loading again and again gets from a file. */
  function LoadedAll(order: Order, b: seq<Byte>): (ms: seq<seq<Frame>>)
    decreases |b|
  {
    if b == [] then []
    else
      var r := Loaded(order, b);
      (if r.frames.Some? then [r.frames.value] else []) + LoadedAll(order, r.rest)
  }

  /** Messages that can be loaded back. */
  predicate Loadable(ms: seq<Message>) {
    forall i :: 0 <= i < |ms| ==> ms[i] != [] && OnlyLastEmpty(ms[i])
  }

  lemma {:induction false} LoadableLoads(order: Order, ms: seq<Message>)
    requires Loadable(ms)
    ensures LoadedAll(order, SavedAll(order, ms)) == ms
  {
    if ms != [] {
      LoadSaved(order, ms[0], SavedAll(order, ms[1..]));
      LoadableLoads(order, ms[1..]);
      assert [ms[0]] + ms[1..] == ms;
    }
  }

  lemma {:induction false} LoadedAllTakes(order: Order, b: seq<Byte>)
    ensures |b| >= FullSizes(LoadedAll(order, b))
    ensures forall i :: 0 <= i < |LoadedAll(order, b)| ==> LoadedAll(order, b)[i] != []
    decreases |b|
  {
    if b != [] {
      var r := Loaded(order, b);
      LoadTakes(order, b);
      LoadedAllTakes(order, r.rest);
      if r.frames.Some? {
        assert LoadedAll(order, b)[1..] == LoadedAll(order, r.rest);
      } else {
        assert LoadedAll(order, b) == LoadedAll(order, r.rest);
      }
    }
  }

  lemma {:induction false} SavedAllSize(order: Order, ms: seq<Message>)
    ensures |SavedAll(order, ms)| <= FullSizes(ms)
    ensures |SavedAll(order, ms)| == FullSizes(ms) <==> forall i :: 0 <= i < |ms| ==> OnlyLastEmpty(ms[i])
  {
    if ms != [] {
      SavedSize(order, ms[0]);
      SavedAllSize(order, ms[1..]);
      assert forall i :: 0 < i < |ms| ==> ms[i] == ms[1..][i - 1];
    }
  }

  /**
   * Saving messages one after the other and loading the file again gives back
   * exactly these messages if and only if each of them can be loaded back.
   */
  lemma LoadsExactly(order: Order, ms: seq<Message>)
    ensures LoadedAll(order, SavedAll(order, ms)) == ms <==> Loadable(ms)
  {
    if Loadable(ms) {
      LoadableLoads(order, ms);
    } else {
      LoadedAllTakes(order, SavedAll(order, ms));
      SavedAllSize(order, ms);
    }
  }
}
