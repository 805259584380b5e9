/**
 * The 24-byte meta frame of a message: encoded in place by C hosts of either
 * byte order, and packed and unpacked independently in Go.
 */
module MetaInfo {
  import opened Bytes
  import opened Options

  const META_INFO_TAG := 0xcabd
  const META_INFO_VERSION := 1

  datatype Meta = Meta(tag: nat, compression: Byte, version: Byte, device: nat, created: nat, sequence: nat)

  predicate Fits(m: Meta) {
    m.tag < Power(2) && m.device < Power(4) && m.created < Power(8) && m.sequence < Power(8)
  }

  // ----- the wire format

  function Network(n: nat, k: nat): (b: seq<Byte>)
    ensures |b| == k
  {
    Store(BigEndian, n, k)
  }

  /** The memory of a msg_meta_t on a host. */
  function Image(order: Order, m: Meta): (b: seq<Byte>)
    ensures |b| == 24
  {
    Store(order, m.tag, 2) + [m.compression, m.version] + Store(order, m.device, 4)
    + Store(order, m.created, 8) + Store(order, m.sequence, 8)
  }

  function Wire(m: Meta): (b: seq<Byte>)
    ensures |b| == 24
  {
    Image(BigEndian, m)
  }

  function FromImage(order: Order, b: seq<Byte>): (m: Meta)
    requires |b| == 24
  {
    Meta(Fetch(order, b[..2]), b[2], b[3], Fetch(order, b[4..8]), Fetch(order, b[8..16]), Fetch(order, b[16..24]))
  }

  lemma Parts(tag: seq<Byte>, c: Byte, v: Byte, device: seq<Byte>, created: seq<Byte>, sequence: seq<Byte>)
    requires |tag| == 2 && |device| == 4 && |created| == 8 && |sequence| == 8
    ensures var b := tag + [c, v] + device + created + sequence;
            b[..2] == tag && b[2] == c && b[3] == v && b[4..8] == device && b[8..16] == created && b[16..24] == sequence
  {
  }

  lemma Whole(b: seq<Byte>)
    requires |b| == 24
    ensures b == b[..2] + [b[2], b[3]] + b[4..8] + b[8..16] + b[16..24]
  {
  }

  lemma ImageHoldsFields(order: Order, m: Meta)
    requires Fits(m)
    ensures FromImage(order, Image(order, m)) == m
  {
    Parts(Store(order, m.tag, 2), m.compression, m.version, Store(order, m.device, 4),
          Store(order, m.created, 8), Store(order, m.sequence, 8));
    FetchStored(order, m.tag, 2);
    FetchStored(order, m.device, 4);
    FetchStored(order, m.created, 8);
    FetchStored(order, m.sequence, 8);
  }

  lemma FieldsHoldImage(order: Order, b: seq<Byte>)
    requires |b| == 24
    ensures Fits(FromImage(order, b)) && Image(order, FromImage(order, b)) == b
  {
    Whole(b);
    StoreFetched(order, b[..2]);
    StoreFetched(order, b[4..8]);
    StoreFetched(order, b[8..16]);
    StoreFetched(order, b[16..24]);
  }

  // ----- byte order conversion

  /** What htons and htonl of the C library do: the value whose memory is in network order. */
  function HostToNetwork(order: Order, n: nat, k: nat): (r: nat) { Fetch(order, Network(n, k)) }

  function NetworkToHost(order: Order, n: nat, k: nat): (r: nat) { Fetch(BigEndian, Store(order, n, k)) }

  lemma ConversionsAreOne(order: Order, n: nat, k: nat)
    requires n < Power(k)
    ensures HostToNetwork(order, n, k) == NetworkToHost(order, n, k) < Power(k)
    ensures Store(order, HostToNetwork(order, n, k), k) == Network(n, k)
    ensures Network(NetworkToHost(order, n, k), k) == Store(order, n, k)
    ensures NetworkToHost(order, HostToNetwork(order, n, k), k) == n
  {
    StoreFetched(order, Network(n, k));
    StoreFetched(BigEndian, Store(order, n, k));
    FetchStored(BigEndian, n, k);
    ReverseTwice(Little(n, k));
  }

  /** A big-endian value grows at the end. */
  lemma FetchBigAppend(b: seq<Byte>, x: Byte)
    ensures Fetch(BigEndian, b + [x]) == 256 * Fetch(BigEndian, b) + x
  {
    ReverseAppend(b, x);
    assert ([x] + Reverse(b))[1..] == Reverse(b);
  }

  lemma {:induction false} PowerGrows(j: nat, k: nat)
    requires j <= k
    ensures Power(j) <= Power(k)
  {
    if j < k { PowerGrows(j, k - 1); }
  }

  lemma SmallEnough(front: seq<Byte>)
    requires |front| < 8
    ensures Fetch(BigEndian, front) * 256 % Power(8) == Fetch(BigEndian, front) * 256
  {
    StoreFetched(BigEndian, front);
    PowerGrows(|front| + 1, 8);
  }

  /** Shifting in the next byte of a 64-bit value loses none of the bytes before it. */
  lemma ShiftIn(memory: seq<Byte>, i: nat)
    requires i < |memory| == 8
    ensures Fetch(BigEndian, memory[..i]) * 256 % Power(8) + memory[i] == Fetch(BigEndian, memory[..i + 1])
  {
    SmallEnough(memory[..i]);
    assert memory[..i + 1] == memory[..i] + [memory[i]];
    FetchBigAppend(memory[..i], memory[i]);
  }

  /** The fallback for htonll adds up the bytes of the argument from the front of its memory. */
  method Htonll(order: Order, number: nat) returns (result: nat)
    requires number < Power(8)
    ensures result == HostToNetwork(order, number, 8)
  {
    var memory := Store(order, number, 8);
    result := 0;
    for i := 0 to 8
      invariant result == Fetch(BigEndian, memory[..i])
    {
      ShiftIn(memory, i);
      result := result * 256 % Power(8);
      result := result + memory[i];
    }
    assert memory[..8] == memory;
    ConversionsAreOne(order, number, 8);
  }

  lemma FillBack(rest: nat, k: nat, memory: seq<Byte>)
    requires k > 0
    ensures Reverse(Little(rest, k)) + memory == Reverse(Little(rest / 256, k - 1)) + ([rest % 256] + memory)
  {
  }

  /** The fallback for ntohll fills the memory of the result from the back. */
  method Ntohll(order: Order, number: nat) returns (result: nat)
    requires number < Power(8)
    ensures result == NetworkToHost(order, number, 8)
  {
    var memory: seq<Byte> := [];
    var rest := number;
    for i := 0 to 8
      invariant |memory| == i
      invariant Network(number, 8) == Reverse(Little(rest, 8 - i)) + memory
    {
      FillBack(rest, 8 - i, memory);
      memory := [rest % 256] + memory;
      rest := rest / 256;
    }
    assert memory == Network(number, 8);
    result := Fetch(order, memory);
    ConversionsAreOne(order, number, 8);
  }

  // ----- C

  function Converted(order: Order, m: Meta): (m': Meta) {
    m.(tag := HostToNetwork(order, m.tag, 2), device := HostToNetwork(order, m.device, 4),
       created := HostToNetwork(order, m.created, 8), sequence := HostToNetwork(order, m.sequence, 8))
  }

  lemma ConvertedImage(order: Order, m: Meta)
    requires Fits(m)
    ensures Fits(Converted(order, m))
    ensures Image(order, Converted(order, m)) == Wire(m)
    ensures Wire(Converted(order, m)) == Image(order, m)
  {
    ConversionsAreOne(order, m.tag, 2);
    ConversionsAreOne(order, m.device, 4);
    ConversionsAreOne(order, m.created, 8);
    ConversionsAreOne(order, m.sequence, 8);
  }

  /** msg_meta_t. */
  class MsgMeta {
    var tag: nat
    var compression: Byte
    var version: Byte
    var device: nat
    var created: nat
    var sequence: nat

    ghost function Fields(): (m: Meta)
      reads this
    {
      Meta(tag, compression, version, device, created, sequence)
    }

    constructor (m: Meta)
      ensures Fields() == m
    {
      tag, compression, version := m.tag, m.compression, m.version;
      device, created, sequence := m.device, m.created, m.sequence;
    }

    /** meta_info_encode: afterwards the memory of the struct is the wire format of the fields it had. */
    method Encode(order: Order)
      requires Fits(Fields())
      modifies this
      ensures Image(order, Fields()) == Wire(old(Fields()).(tag := META_INFO_TAG))
      ensures Fits(Fields())
    {
      assert META_INFO_TAG < Power(2);
      ConvertedImage(order, Fields().(tag := META_INFO_TAG));
      tag := HostToNetwork(order, META_INFO_TAG, 2);
      device := HostToNetwork(order, device, 4);
      created := Htonll(order, created);
      sequence := Htonll(order, sequence);
    }

    /** meta_info_decode: afterwards the fields are the ones whose wire format was in memory. */
    method Decode(order: Order)
      requires Fits(Fields())
      modifies this
      ensures Wire(Fields()) == old(Image(order, Fields()))
      ensures Fits(Fields())
    {
      ConversionsAreOne(order, tag, 2);
      ConversionsAreOne(order, device, 4);
      ConversionsAreOne(order, created, 8);
      ConversionsAreOne(order, sequence, 8);
      tag := NetworkToHost(order, tag, 2);
      device := NetworkToHost(order, device, 4);
      created := Ntohll(order, created);
      sequence := Ntohll(order, sequence);
    }
  }

  predicate Accepted(m: Meta) { m.tag == META_INFO_TAG && m.version == META_INFO_VERSION }

  /** zmq_msg_extract_meta_info accepts exactly the frames that are the wire format of tagged fields of version 1. */
  method Extract(order: Order, frame: seq<Byte>) returns (r: Option<Meta>)
    ensures r.Some? ==> Fits(r.value) && Accepted(r.value) && Wire(r.value) == frame
    ensures r.None? ==> forall m :: Fits(m) && Accepted(m) ==> Wire(m) != frame
  {
    if |frame| != 24 {
      return None;
    }
    FieldsHoldImage(order, frame);
    var meta := new MsgMeta(FromImage(order, frame));
    meta.Decode(order);
    var m := Meta(meta.tag, meta.compression, meta.version, meta.device, meta.created, meta.sequence);
    ImageHoldsFields(BigEndian, m);
    if m.tag != META_INFO_TAG || m.version != META_INFO_VERSION {
      forall o | Fits(o) && Wire(o) == frame ensures o == m { ImageHoldsFields(BigEndian, o); }
      return None;
    }
    return Some(m);
  }

  /** Four bytes read as one number, the first being the most significant. */
  function Quad(a: int, b: int, c: int, d: int): (n: int) { 0x1_00_00_00 * a + 0x1_00_00 * b + 0x1_00 * c + d }

  lemma BigTwo(b: seq<Byte>)
    requires |b| == 2
    ensures Fetch(BigEndian, b) == Quad(0, 0, b[0], b[1])
  {
    assert b == [b[0]] + [b[1]] && [b[0]] == [] + [b[0]];
    FetchBigAppend([], b[0]);
    FetchBigAppend([b[0]], b[1]);
  }

  lemma BigFour(b: seq<Byte>)
    requires |b| == 4
    ensures Fetch(BigEndian, b) == Quad(b[0], b[1], b[2], b[3])
  {
    BigTwo(b[..2]);
    assert b[..3] == b[..2] + [b[2]] && b == b[..3] + [b[3]];
    FetchBigAppend(b[..2], b[2]);
    FetchBigAppend(b[..3], b[3]);
  }

  lemma BigEight(b: seq<Byte>)
    requires |b| == 8
    ensures Fetch(BigEndian, b) == 0x1_00_00_00_00 * Quad(b[0], b[1], b[2], b[3]) + Quad(b[4], b[5], b[6], b[7])
  {
    BigFour(b[..4]);
    assert b[..5] == b[..4] + [b[4]] && b[..6] == b[..5] + [b[5]] && b[..7] == b[..6] + [b[6]] && b == b[..7] + [b[7]];
    FetchBigAppend(b[..4], b[4]);
    FetchBigAppend(b[..5], b[5]);
    FetchBigAppend(b[..6], b[6]);
    FetchBigAppend(b[..7], b[7]);
  }

  lemma FieldsOfBytes(b: seq<Byte>)
    requires |b| == 24
    ensures var m := FromImage(BigEndian, b);
            && m.tag == Quad(0, 0, b[0], b[1]) && m.compression == b[2] && m.version == b[3]
            && m.device == Quad(b[4], b[5], b[6], b[7])
            && m.created == 0x1_00_00_00_00 * Quad(b[8], b[9], b[10], b[11]) + Quad(b[12], b[13], b[14], b[15])
            && m.sequence == 0x1_00_00_00_00 * Quad(b[16], b[17], b[18], b[19]) + Quad(b[20], b[21], b[22], b[23])
  {
    BigTwo(b[..2]);
    BigFour(b[4..8]);
    BigEight(b[8..16]);
    BigEight(b[16..24]);
  }

  lemma TagBytes(x: Byte, y: Byte)
    requires Quad(0, 0, x, y) == META_INFO_TAG
    ensures x == 0xca && y == 0xbd
  {
  }

  /**
   * Byte by byte: a frame starts with 0xca 0xbd, then come the compression method, the version 1 and, each with its
   * most significant byte first, the device, the time and the sequence number.
   */
  lemma FrameLayout(m: Meta)
    requires Fits(m) && Accepted(m)
    ensures var b := Wire(m);
            && |b| == 24 && b[0] == 0xca && b[1] == 0xbd && b[2] == m.compression && b[3] == 1
            && m.device == Quad(b[4], b[5], b[6], b[7])
            && m.created == 0x1_00_00_00_00 * Quad(b[8], b[9], b[10], b[11]) + Quad(b[12], b[13], b[14], b[15])
            && m.sequence == 0x1_00_00_00_00 * Quad(b[16], b[17], b[18], b[19]) + Quad(b[20], b[21], b[22], b[23])
  {
    var b := Wire(m);
    ImageHoldsFields(BigEndian, m);
    FieldsOfBytes(b);
    TagBytes(b[0], b[1]);
  }

  // ----- Go

  /** A right shift by `j` bytes. */
  function ShiftRight(n: nat, j: nat): (r: nat)
    decreases j
  {
    if j == 0 then n else ShiftRight(n / 256, j - 1)
  }

  /** binary.BigEndian.PutUintXX: byte i is the value shifted right by all the bytes after it. */
  function Put(n: nat, k: nat): (b: seq<Byte>)
    ensures |b| == k
  {
    seq(k, i requires 0 <= i < k => ShiftRight(n, k - 1 - i) % 256)
  }

  /** binary.BigEndian.UintXX: every byte shifted left by all the bytes after it, added up. */
  function Get(b: seq<Byte>): (n: nat) {
    if b == [] then 0 else b[0] * Power(|b| - 1) + Get(b[1..])
  }

  method PackInfo(sequence: nat, device: nat, compression: Byte, now: nat) returns (data: seq<Byte>)
    requires sequence < Power(8) && device < Power(4) && now < Power(8)
    ensures data == Wire(Meta(META_INFO_TAG, compression, META_INFO_VERSION, device, now, sequence))
  {
    PackedIsWire(Meta(META_INFO_TAG, compression, META_INFO_VERSION, device, now, sequence));
    data := Put(META_INFO_TAG, 2) + [compression, META_INFO_VERSION] + Put(device, 4) + Put(now, 8) + Put(sequence, 8);
  }

  method UnpackInfo(data: seq<Byte>) returns (r: Option<Meta>)
    ensures r.Some? <==> |data| == 24
    ensures r.Some? ==> Fits(r.value) && Wire(r.value) == data
  {
    if |data| != 24 {
      return None;
    }
    FieldsHoldImage(BigEndian, data);
    GetIsFetch(data[0..2]);
    GetIsFetch(data[4..8]);
    GetIsFetch(data[8..16]);
    GetIsFetch(data[16..24]);
    assert data[0..2] == data[..2];
    r := Some(Meta(Get(data[0..2]), data[2], data[3], Get(data[4..8]), Get(data[8..16]), Get(data[16..24])));
  }

  lemma PackedIsWire(m: Meta)
    ensures Put(m.tag, 2) + [m.compression, m.version] + Put(m.device, 4) + Put(m.created, 8) + Put(m.sequence, 8) ==
            Wire(m)
  {
    PutIsNetwork(m.tag, 2);
    PutIsNetwork(m.device, 4);
    PutIsNetwork(m.created, 8);
    PutIsNetwork(m.sequence, 8);
  }

  lemma {:induction false} PutIsNetwork(n: nat, k: nat)
    ensures Put(n, k) == Network(n, k)
    decreases k
  {
    if k > 0 {
      PutIsNetwork(n / 256, k - 1);
      assert Network(n, k) == Network(n / 256, k - 1) + [n % 256];
      forall i | 0 <= i < k - 1 ensures Put(n, k)[i] == Put(n / 256, k - 1)[i] {
        assert ShiftRight(n, k - 1 - i) == ShiftRight(n / 256, k - 2 - i);
      }
      assert Put(n, k)[k - 1] == ShiftRight(n, 0) % 256;
      assert Put(n, k) == Put(n / 256, k - 1) + [n % 256];
    }
  }

  lemma {:induction false} GetIsFetch(b: seq<Byte>)
    ensures Get(b) == Fetch(BigEndian, b)
  {
    if b != [] {
      GetIsFetch(b[1..]);
      FromLittleAppend(Reverse(b[1..]), b[0]);
    }
  }

  lemma {:induction false} FromLittleAppend(b: seq<Byte>, x: Byte)
    ensures FromLittle(b + [x]) == FromLittle(b) + x * Power(|b|)
  {
    if b == [] {
      assert b + [x] == [x];
    } else {
      assert (b + [x])[1..] == b[1..] + [x];
      FromLittleAppend(b[1..], x);
      assert 256 * (x * Power(|b| - 1)) == x * Power(|b|);
    }
  }

  // ----- together

  /** Fields encoded on any C host, or packed in Go, come out the same on any C host and in Go. */
  method Transfer(from: Order, to: Order, m: Meta) returns (inC: Option<Meta>, inGo: Option<Meta>)
    requires Fits(m)
    ensures inGo == Some(m.(tag := META_INFO_TAG))
    ensures inC == if m.version == META_INFO_VERSION then Some(m.(tag := META_INFO_TAG)) else None
  {
    var meta := new MsgMeta(m);
    meta.Encode(from);
    var sent := m.(tag := META_INFO_TAG);
    assert META_INFO_TAG < Power(2);
    var frame := Image(from, Meta(meta.tag, meta.compression, meta.version, meta.device, meta.created, meta.sequence));
    assert frame == Wire(sent);
    ImageHoldsFields(BigEndian, sent);
    inC := Extract(to, frame);
    if inC.Some? { ImageHoldsFields(BigEndian, inC.value); }
    inGo := UnpackInfo(frame);
    ImageHoldsFields(BigEndian, inGo.value);
  }

  method TransferFromGo(to: Order, sequence: nat, device: nat, compression: Byte, now: nat) returns (inC: Option<Meta>)
    requires sequence < Power(8) && device < Power(4) && now < Power(8)
    ensures inC == Some(Meta(META_INFO_TAG, compression, META_INFO_VERSION, device, now, sequence))
  {
    var frame := PackInfo(sequence, device, compression, now);
    var sent := Meta(META_INFO_TAG, compression, META_INFO_VERSION, device, now, sequence);
    assert META_INFO_TAG < Power(2);
    ImageHoldsFields(BigEndian, sent);
    inC := Extract(to, frame);
    ImageHoldsFields(BigEndian, inC.value);
  }
}
