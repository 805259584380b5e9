/** Integers as sequences of bytes, in the two byte orders a host can have. */
module Bytes {
  type Byte = x: int | 0 <= x < 256

  datatype Order = LittleEndian | BigEndian

  function Power(k: nat): (p: nat)
    ensures p > 0
  {
    if k == 0 then 1 else 256 * Power(k - 1)
  }

  function Reverse(b: seq<Byte>): (r: seq<Byte>)
    ensures |r| == |b|
  {
    if b == [] then [] else Reverse(b[1..]) + [b[0]]
  }

  /** `n` in `k` bytes, least significant first. */
  function Little(n: nat, k: nat): (b: seq<Byte>)
    ensures |b| == k
    decreases k
  {
    if k == 0 then [] else [n % 256] + Little(n / 256, k - 1)
  }

  function FromLittle(b: seq<Byte>): (n: nat) {
    if b == [] then 0 else b[0] + 256 * FromLittle(b[1..])
  }

  /** How a host with a given byte order keeps a `k`-byte unsigned integer in memory. */
  function Store(order: Order, n: nat, k: nat): (b: seq<Byte>)
    ensures |b| == k
  {
    if order.LittleEndian? then Little(n, k) else Reverse(Little(n, k))
  }

  function Fetch(order: Order, b: seq<Byte>): (n: nat) {
    if order.LittleEndian? then FromLittle(b) else FromLittle(Reverse(b))
  }

  lemma {:induction false} ReverseAppend(b: seq<Byte>, x: Byte)
    ensures Reverse(b + [x]) == [x] + Reverse(b)
  {
    if b == [] {
      assert b + [x] == [x];
    } else {
      assert (b + [x])[1..] == b[1..] + [x];
      ReverseAppend(b[1..], x);
    }
  }

  lemma {:induction false} ReverseTwice(b: seq<Byte>)
    ensures Reverse(Reverse(b)) == b
  {
    if b != [] {
      ReverseAppend(Reverse(b[1..]), b[0]);
      ReverseTwice(b[1..]);
    }
  }

  lemma LastDigit(x: Byte, n: nat)
    ensures (x + 256 * n) % 256 == x && (x + 256 * n) / 256 == n
  {
  }

  lemma {:induction false} LittleOfBytes(b: seq<Byte>)
    ensures FromLittle(b) < Power(|b|)
    ensures Little(FromLittle(b), |b|) == b
  {
    if b != [] {
      LittleOfBytes(b[1..]);
      LastDigit(b[0], FromLittle(b[1..]));
    }
  }

  lemma {:induction false} BytesOfLittle(n: nat, k: nat)
    requires n < Power(k)
    ensures FromLittle(Little(n, k)) == n
    decreases k
  {
    if k > 0 {
      BytesOfLittle(n / 256, k - 1);
    }
  }

  /** Storing and fetching are inverse to each other in either byte order. */
  lemma FetchStored(order: Order, n: nat, k: nat)
    requires n < Power(k)
    ensures Fetch(order, Store(order, n, k)) == n
  {
    BytesOfLittle(n, k);
    ReverseTwice(Little(n, k));
  }

  lemma StoreFetched(order: Order, b: seq<Byte>)
    ensures Fetch(order, b) < Power(|b|)
    ensures Store(order, Fetch(order, b), |b|) == b
  {
    LittleOfBytes(b);
    LittleOfBytes(Reverse(b));
    ReverseTwice(b);
  }
}
