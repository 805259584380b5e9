/**
 * The string keys of the processor's tables, printed with snprintf by the
 * processor and taken apart again by the stats updater.
 */
module KeyCodec {

  predicate IsDigit(c: char) { '0' <= c <= '9' }

  function DigitOf(n: nat): (c: char)
    requires n < 10
    ensures IsDigit(c) && c as int - '0' as int == n
  {
    '0' + n as char
  }

  /** The decimal digits that "%lu", "%zu" and "%d" print for a non-negative number. */
  function Decimal(n: nat): (s: string)
    ensures s != [] && forall i :: 0 <= i < |s| ==> IsDigit(s[i])
  {
    if n < 10 then [DigitOf(n)] else Decimal(n / 10) + [DigitOf(n % 10)]
  }

  /** The number a digit loop accumulates from left to right. */
  function Number(s: string): (n: nat)
    requires forall i :: 0 <= i < |s| ==> IsDigit(s[i])
  {
    if s == [] then 0
    else
      assert IsDigit(s[|s|-1]);
      Number(s[..|s|-1]) * 10 + (s[|s|-1] as int - '0' as int)
  }

  lemma {:induction false} NumberOfDecimal(n: nat)
    ensures Number(Decimal(n)) == n
  {
    if n < 10 {
      assert Decimal(n)[..0] == [];
    } else {
      NumberOfDecimal(n / 10);
      assert Decimal(n)[..|Decimal(n)|-1] == Decimal(n / 10);
    }
  }

  function MinuteKey(minute: nat, ns: string): (key: string) {
    Decimal(minute) + "-" + ns
  }

  function QuantKey(kind: char, quant: nat, ns: string): (key: string) {
    [kind] + "-" + MinuteKey(quant, ns)
  }

  function HistogramKey(minute: nat, resource: string, ns: string): (key: string) {
    MinuteKey(minute, resource + "-" + ns)
  }

  predicate HyphenFree(s: string) { '-' !in s }

  /** The loop that all three decoders start with: digits, then one skipped character. */
  method SkipNumber(key: string, start: nat, ghost n: nat, ghost ns: string) returns (number: nat, p: nat)
    requires start <= |key| && key[start..] == MinuteKey(n, ns)
    ensures number == n && p <= |key| && key[p..] == ns
  {
    ghost var digits := Decimal(n);
    p, number := start, 0;
    assert [] == digits[..0];
    while p < |key| && IsDigit(key[p])
      invariant start <= p <= start + |digits| < |key|
      invariant number == Number(digits[..p - start])
    {
      assert key[p] == key[start..][p - start];
      assert digits[..p - start + 1][..p - start] == digits[..p - start];
      number := number * 10 + (key[p] as int - '0' as int);
      p := p + 1;
    }
    assert key[p] == key[start..][p - start];
    assert digits[..p - start] == digits;
    NumberOfDecimal(n);
    p := p + 1;
    assert key[p..] == key[start..][p - start..] == ns;
  }

  /** The key decoding of minutes_add_increments inverts MinuteKey for every minute and namespace. */
  method DecodeMinuteKey(key: string, ghost m: nat, ghost ns: string) returns (minute: nat, page: string)
    requires key == MinuteKey(m, ns)
    ensures minute == m && page == ns
  {
    var p;
    assert key[0..] == key;
    minute, p := SkipNumber(key, 0, m, ns);
    page := key[p..];
  }

  method DecodeQuantKey(key: string, ghost k: char, ghost q: nat, ghost ns: string)
    returns (kind: char, quant: nat, page: string)
    requires key == QuantKey(k, q, ns)
    ensures kind == k && quant == q && page == ns
  {
    kind := key[0];
    var p;
    assert key[2..] == MinuteKey(q, ns);
    quant, p := SkipNumber(key, 2, q, ns);
    page := key[p..];
  }

  method DecodeHistogramKey(key: string, ghost m: nat, ghost r: string, ghost ns: string)
    returns (minute: nat, resource: string, page: string)
    requires HyphenFree(r) && key == HistogramKey(m, r, ns)
    ensures minute == m && resource == r && page == ns
  {
    var p;
    assert key[0..] == key;
    minute, p := SkipNumber(key, 0, m, r + "-" + ns);
    ghost var rest := r + "-" + ns;
    ghost var start := p;
    resource := "";
    while key[p] != '-'
      invariant start <= p <= start + |r| && key[start..] == rest && resource == r[..p - start]
      decreases |key| - p
    {
      assert key[p] == rest[p - start];
      resource := resource + [key[p]];
      p := p + 1;
    }
    assert key[p] == rest[p - start];
    assert r[..p - start] == r;
    page := key[p + 1..];
    assert page == rest[p - start + 1..];
  }

  // ----- the keys are injective

  lemma MinuteKeyInjective(m1: nat, ns1: string, m2: nat, ns2: string)
    requires MinuteKey(m1, ns1) == MinuteKey(m2, ns2)
    ensures m1 == m2 && ns1 == ns2
  {
    var d1, d2 := Decimal(m1), Decimal(m2);
    var k1, k2 := MinuteKey(m1, ns1), MinuteKey(m2, ns2);
    assert forall i :: 0 <= i < |d1| ==> k1[i] == d1[i];
    assert forall i :: 0 <= i < |d2| ==> k2[i] == d2[i];
    assert k1[|d1|] == '-' && k2[|d2|] == '-';
    assert |d1| == |d2|;
    assert k1[..|d1|] == d1 && k2[..|d2|] == d2;
    assert k1[|d1|+1..] == ns1 && k2[|d2|+1..] == ns2;
    NumberOfDecimal(m1);
    NumberOfDecimal(m2);
  }

  lemma QuantKeyInjective(k1: char, q1: nat, ns1: string, k2: char, q2: nat, ns2: string)
    requires QuantKey(k1, q1, ns1) == QuantKey(k2, q2, ns2)
    ensures k1 == k2 && q1 == q2 && ns1 == ns2
  {
    assert QuantKey(k1, q1, ns1)[0] == k1 && QuantKey(k2, q2, ns2)[0] == k2;
    assert QuantKey(k1, q1, ns1)[2..] == MinuteKey(q1, ns1);
    assert QuantKey(k2, q2, ns2)[2..] == MinuteKey(q2, ns2);
    MinuteKeyInjective(q1, ns1, q2, ns2);
  }

  lemma HistogramKeyInjective(m1: nat, r1: string, ns1: string, m2: nat, r2: string, ns2: string)
    requires HyphenFree(r1) && HyphenFree(r2)
    requires HistogramKey(m1, r1, ns1) == HistogramKey(m2, r2, ns2)
    ensures m1 == m2 && r1 == r2 && ns1 == ns2
  {
    var x1, x2 := r1 + "-" + ns1, r2 + "-" + ns2;
    MinuteKeyInjective(m1, x1, m2, x2);
    assert forall i :: 0 <= i < |r1| ==> x1[i] == r1[i];
    assert forall i :: 0 <= i < |r2| ==> x2[i] == r2[i];
    assert x1[|r1|] == '-' && x2[|r2|] == '-';
    assert |r1| == |r2|;
    assert x1[..|r1|] == r1 && x2[..|r2|] == r2;
    assert x1[|r1|+1..] == ns1 && x2[|r2|+1..] == ns2;
  }
}
