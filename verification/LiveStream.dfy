/**
 * The ring buffers of the live stream server and the window logic that turns
 * request times into minute means, an hourly forecast and an anomaly score.
 */
module LiveStream {
  import opened Options

  const SIZE := 60

  /** Go's remainder, which takes the sign of the dividend. */
  function Remainder(a: int, b: int): (r: int)
    requires b > 0
  {
    if a >= 0 then a % b else -((-a) % b)
  }

  function Min(a: int, b: int): (m: int) { if a < b then a else b }

  /** The last up to 60 values, oldest first. */
  function Recent<T>(added: seq<T>): (live: seq<T>) { added[|added| - Min(|added|, SIZE)..] }

  lemma SlotsDiffer(j: int, n: int)
    requires 0 < n - j < SIZE && 0 <= j
    ensures j % SIZE != n % SIZE
  {
  }

  lemma SlotFromStart(n: int, size: int, i: int)
    requires n >= size == Min(n, SIZE) > 0 && size - 1 == (n - 1) % SIZE && 0 <= i < size
    ensures (n - size + i) % SIZE == i
  {
  }

  lemma OldestSlot(n: int, size: int)
    requires n >= size == Min(n, SIZE) > 0
    ensures var p := Remainder((n - 1) % SIZE - size + 1, SIZE);
            (if p < 0 then p + SIZE else p) == (n - size) % SIZE
  {
  }

  lemma NextSlot(j: int)
    requires j >= 0
    ensures Remainder(j % SIZE + 1, SIZE) == (j + 1) % SIZE
  {
  }

  /** StringRing and Float64Ring. */
  class Ring<T> {
    const zero: T
    const buf: array<T>
    var last: int
    var size: int
    ghost var added: seq<T>  // everything added since the start or the last reset

    ghost predicate Valid()
      reads this, buf
    {
      && buf.Length == SIZE
      && size == Min(|added|, SIZE)
      && last == (if added == [] then -1 else (|added| - 1) % SIZE)
      && forall j :: |added| - size <= j < |added| ==> buf[j % SIZE] == added[j]
    }

    /** The slots never used since the start still hold Go's zero value. */
    ghost predicate Clean()
      reads this, buf
    {
      buf.Length == SIZE && forall i :: 0 <= size <= i < SIZE ==> buf[i] == zero
    }

    constructor (zero: T)
      ensures Valid() && Clean() && added == [] && fresh(buf) && this.zero == zero
    {
      this.zero := zero;
      buf := new T[SIZE](_ => zero);
      last, size, added := -1, 0, [];
    }

    method Add(value: T)
      requires Valid()
      modifies this, buf
      ensures Valid() && added == old(added) + [value]
      ensures 0 <= last < SIZE && buf[..] == old(buf[..])[last := value]
      ensures old(Clean()) ==> Clean()
    {
      if size < SIZE {
        size := size + 1;
      }
      last := Remainder(last + 1, SIZE);
      assert last == |added| % SIZE;
      forall j | |added| + 1 - size <= j < |added| ensures j % SIZE != last { SlotsDiffer(j, |added|); }
      buf[last] := value;
      added := added + [value];
    }

    method Reset()
      requires Valid()
      modifies this
      ensures Valid() && added == []
    {
      size, last, added := 0, -1, [];
    }

    /** Hands over the last up to 60 values, oldest first. */
    method ForEach() returns (handed: seq<T>)
      requires Valid()
      ensures handed == Recent(added)
    {
      handed := [];
      if size == 0 {
        return;
      }
      var p := Remainder(last - size + 1, SIZE);
      if p < 0 {
        p := p + SIZE;
      }
      ghost var from := |added| - size;
      OldestSlot(|added|, size);
      for i := 0 to size
        invariant p == (from + i) % SIZE
        invariant handed == added[from..from + i]
      {
        handed := handed + [buf[p]];
        NextSlot(from + i);
        p := Remainder(p + 1, SIZE);
      }
    }
  }

  // ----- means

  function Sum(values: seq<real>): (sum: real) {
    if values == [] then 0.0 else Sum(values[..|values| - 1]) + values[|values| - 1]
  }

  lemma SumSnoc(values: seq<real>, x: real)
    ensures Sum(values + [x]) == Sum(values) + x
  {
    assert (values + [x])[..|values|] == values;
  }

  lemma SumNext(values: seq<real>, from: nat, i: nat)
    requires from + i < |values|
    ensures Sum(values[from..from + i + 1]) == Sum(values[from..from + i]) + values[from + i]
  {
    assert values[from..from + i + 1] == values[from..from + i] + [values[from + i]];
    SumSnoc(values[from..from + i], values[from + i]);
  }

  lemma {:induction false} SumConcat(a: seq<real>, b: seq<real>)
    ensures Sum(a + b) == Sum(a) + Sum(b)
  {
    if b == [] {
      assert a + b == a;
    } else {
      assert (a + b)[..|a + b| - 1] == a + b[..|b| - 1];
      SumConcat(a, b[..|b| - 1]);
    }
  }

  lemma {:induction false} SumZeros(values: seq<real>)
    requires forall i :: 0 <= i < |values| ==> values[i] == 0.0
    ensures Sum(values) == 0.0
  {
    if values != [] { SumZeros(values[..|values| - 1]); }
  }

  function TrueMean(values: seq<real>): (mean: real) {
    if values == [] then 0.0 else Sum(values) / |values| as real
  }

  /** When the newest value is in slot size - 1, the live values fill the front of the buffer. */
  lemma FrontIsLive(r: Ring<real>)
    requires r.Valid() && r.size > 0 && r.size - 1 == r.last
    ensures r.buf[..r.size] == Recent(r.added)
  {
    var n := |r.added|;
    forall i | 0 <= i < r.size ensures r.buf[i] == Recent(r.added)[i] {
      SlotFromStart(n, r.size, i);
      assert r.buf[(n - r.size + i) % SIZE] == r.added[n - r.size + i];
    }
  }

  method SumAll(values: array<real>) returns (sum: real)
    ensures sum == Sum(values[..])
  {
    sum := 0.0;
    for i := 0 to values.Length
      invariant sum == Sum(values[..i])
    {
      SumNext(values[..], 0, i);
      assert values[..][0..i] == values[..i] && values[..][0..i + 1] == values[..i + 1];
      sum := sum + values[i];
    }
    assert values[..] == values[..values.Length];
  }

  method SumLive(r: Ring<real>) returns (sum: real)
    requires r.Valid() && r.size > 0
    ensures sum == Sum(Recent(r.added))
  {
    sum := 0.0;
    var p := Remainder(r.last - r.size + 1, SIZE);
    if p < 0 {
      p := p + SIZE;
    }
    ghost var from := |r.added| - r.size;
    OldestSlot(|r.added|, r.size);
    for i := 0 to r.size
      invariant p == (from + i) % SIZE
      invariant sum == Sum(r.added[from..from + i])
    {
      SumNext(r.added, from, i);
      sum := sum + r.buf[p];
      NextSlot(from + i);
      p := Remainder(p + 1, SIZE);
    }
    assert r.added[from..from + r.size] == Recent(r.added);
  }

  /** When the newest value is in slot size - 1, the whole buffer holds the live values and what was left behind. */
  lemma WholeSum(r: Ring<real>)
    requires r.Valid() && r.size > 0 && r.size - 1 == r.last
    ensures Sum(r.buf[..]) == Sum(Recent(r.added)) + Sum(r.buf[r.size..])
  {
    FrontIsLive(r);
    assert r.buf[..] == r.buf[..r.size] + r.buf[r.size..];
    SumConcat(r.buf[..r.size], r.buf[r.size..]);
  }

  /** The shortcut: the sum of the whole buffer. */
  method WholeMean(r: Ring<real>) returns (mean: real)
    requires r.Valid() && r.size > 0 && r.size - 1 == r.last
    ensures mean == TrueMean(Recent(r.added)) <==> Sum(r.buf[r.size..]) == 0.0
  {
    var all := SumAll(r.buf);
    WholeSum(r);
    QuotientsDiffer(Sum(Recent(r.added)), Sum(r.buf[r.size..]), r.size as real);
    mean := all / r.size as real;
  }

  /**
   * Float64Ring.Mean adds up the whole buffer when the newest value is in slot
   * size - 1. It is the mean of the live values if and only if that shortcut
   * is not taken, or what is left in the other slots adds up to nothing.
   */
  method Mean(r: Ring<real>) returns (mean: real)
    requires r.Valid()
    ensures mean == TrueMean(Recent(r.added)) <==>
            r.size == 0 || r.size - 1 != r.last || Sum(r.buf[r.size..]) == 0.0
  {
    if r.size == 0 {
      return 0.0;
    }
    if r.size - 1 == r.last {
      mean := WholeMean(r);
      return;
    }
    var live := SumLive(r);
    mean := live / r.size as real;
  }

  lemma QuotientsDiffer(a: real, b: real, n: real)
    requires n > 0.0
    ensures (a + b) / n == a / n <==> b == 0.0
  {
    assert (a + b) / n == a / n + b / n;
    assert b == b / n * n;
  }

  /** The shortcut is right for a full ring and for one that was never reset. */
  lemma ShortcutIsRight(r: Ring<real>)
    requires r.Valid() && (r.size == SIZE || (r.Clean() && r.zero == 0.0))
    ensures Sum(r.buf[r.size..]) == 0.0
  {
    SumZeros(r.buf[r.size..]);
  }

  lemma OneAndZeros(zeros: seq<real>)
    requires forall i :: 0 <= i < |zeros| ==> zeros[i] == 0.0
    ensures Sum([1.0] + zeros) == 1.0
  {
    SumConcat([1.0], zeros);
    SumZeros(zeros);
  }

  /** Without the precautions of the dispatcher the shortcut goes wrong: values from before a reset are added in. */
  method ResetRingMisleads() returns (mean: real)
    ensures mean != TrueMean([1.0])
  {
    var r := new Ring<real>(0.0);
    r.Add(1.0);
    r.Add(1.0);
    ghost var was := r.buf[..];
    r.Reset();
    r.Add(1.0);
    assert r.buf[1..] == was[1..];
    assert r.buf[1..] == [1.0] + r.buf[2..];
    OneAndZeros(r.buf[2..]);
    assert Recent(r.added) == [1.0];
    mean := Mean(r);
  }

  // ----- anomalies

  datatype Anomaly = Anomaly(score: real, anomalous: bool)

  function Abs(x: real): (r: real) { if x < 0.0 then -x else x }

  function Judge(known: bool, forecast: real, mean: real): (a: Anomaly) {
    var score := if known && forecast + mean > 0.0 then Abs(forecast - mean) / (forecast + mean) else 0.0;
    Anomaly(score, score > 0.24)
  }

  /**
   * A minute is anomalous if and only if its mean and the forecast have a
   * positive sum and are more than a factor 31/19 apart. The score is at most 1
   * if and only if that sum is not positive or neither of them is negative.
   */
  lemma AnomalyIsARatio(forecast: real, mean: real)
    ensures var a := Judge(true, forecast, mean);
            && a == Judge(true, mean, forecast)
            && a.score >= 0.0
            && (a.score <= 1.0 <==> forecast + mean <= 0.0 || (forecast >= 0.0 && mean >= 0.0))
            && (a.anomalous <==>
                  forecast + mean > 0.0 && (19.0 * forecast > 31.0 * mean || 19.0 * mean > 31.0 * forecast))
  {
    var sum, difference := forecast + mean, Abs(forecast - mean);
    if sum > 0.0 {
      QuotientAbove(difference, sum, 0.24);
      QuotientAbove(difference, sum, 1.0);
      QuotientNotNegative(difference, sum);
    }
  }

  lemma QuotientTimes(d: real, s: real)
    requires s > 0.0
    ensures d / s * s == d
  {
  }

  lemma QuotientNotNegative(d: real, s: real)
    requires d >= 0.0 && s > 0.0
    ensures d / s >= 0.0
  {
    var q := d / s;
    assert q * s == d;
    assert q < 0.0 ==> q * s < 0.0;
  }

  lemma QuotientAbove(d: real, s: real, c: real)
    requires s > 0.0
    ensures d / s > c <==> d > c * s
  {
    var q := d / s;
    assert q * s == d;
    assert (q - c) * s == d - c * s;
    assert q > c <==> (q - c) * s > 0.0;
  }

  // ----- the dispatcher

  /** How many blocks of 60 samples are closed after `n` samples: a block is closed by the sample after it. */
  function Blocks(n: nat): (k: nat) { if n == 0 then 0 else (n - 1) / SIZE }

  lemma BlocksNext(n: nat)
    ensures 0 <= n - SIZE * Blocks(n) <= SIZE
    ensures n - SIZE * Blocks(n) == SIZE <==> n > 0 && n % SIZE == 0
    ensures n > 0 && n % SIZE == 0 ==> Blocks(n) == n / SIZE - 1
    ensures Blocks(n + 1) == Blocks(n) + if n > 0 && n % SIZE == 0 then 1 else 0
  {
  }

  /** The means of the first `k` blocks of 60 samples. */
  function Means(samples: seq<real>, k: nat): (means: seq<real>)
    requires SIZE * k <= |samples|
    ensures |means| == k
  {
    if k == 0 then [] else Means(samples, k - 1) + [TrueMean(samples[SIZE * (k - 1)..SIZE * k])]
  }

  lemma {:induction false} MeansOfPrefix(samples: seq<real>, more: seq<real>, k: nat)
    requires SIZE * k <= |samples|
    ensures Means(samples + more, k) == Means(samples, k)
  {
    if k > 0 {
      MeansOfPrefix(samples, more, k - 1);
      assert (samples + more)[SIZE * (k - 1)..SIZE * k] == samples[SIZE * (k - 1)..SIZE * k];
    }
  }

  /** What is reported on arrival of the next sample, as a function of all samples before it. */
  function Report(samples: seq<real>): (a: Option<Anomaly>) {
    if |samples| > 0 && |samples| % SIZE == 0 then
      var hour := Means(samples, |samples| / SIZE - 1);
      Some(Judge(hour != [], TrueMean(Recent(hour)), TrueMean(samples[|samples| - SIZE..])))
    else None
  }

  /** What closing a minute reports and adds to the hour, in terms of the two windows. */
  lemma ClosingSpec(samples: seq<real>, minute: seq<real>, hour: seq<real>)
    requires |samples| > 0 && |samples| % SIZE == 0 && SIZE * Blocks(|samples|) <= |samples|
    requires minute == samples[SIZE * Blocks(|samples|)..] && hour == Means(samples, Blocks(|samples|))
    ensures |minute| == SIZE && Recent(minute) == minute
    ensures Report(samples) == Some(Judge(hour != [], TrueMean(Recent(hour)), TrueMean(minute)))
    ensures Means(samples, Blocks(|samples|) + 1) == hour + [TrueMean(minute)]
  {
    BlocksNext(|samples|);
    var k := Blocks(|samples|);
    assert k == |samples| / SIZE - 1 && SIZE * k == |samples| - SIZE;
    assert samples[SIZE * k..SIZE * (k + 1)] == minute == samples[|samples| - SIZE..];
    assert Means(samples, k + 1) == Means(samples, k) + [TrueMean(samples[SIZE * k..SIZE * (k + 1)])];
  }

  // ----- what the reports say about the samples

  /** The mean of the minute of samples with index `i`. */
  function MinuteMean(samples: seq<real>, i: nat): (mean: real)
    requires 60 * i + 60 <= |samples|
  {
    Sum(samples[60 * i..60 * i + 60]) / 60.0
  }

  /** The means of the minutes before minute `k`, of at most an hour. */
  function LastHour(samples: seq<real>, k: nat): (means: seq<real>)
    requires 60 * k <= |samples|
    ensures |means| == if k < 60 then k else 60
  {
    var first := if k < 60 then 0 else k - 60;
    seq(k - first, i requires 0 <= i < k - first => MinuteMean(samples, first + i))
  }

  lemma {:induction false} MeansAt(samples: seq<real>, k: nat, i: nat)
    requires SIZE * k <= |samples| && i < k
    ensures Means(samples, k)[i] == MinuteMean(samples, i)
  {
    if i < k - 1 {
      MeansAt(samples, k - 1, i);
    }
  }

  lemma RecentIsLastHour(samples: seq<real>, k: nat)
    requires SIZE * k <= |samples|
    ensures Recent(Means(samples, k)) == LastHour(samples, k)
  {
    var first := if k < 60 then 0 else k - 60;
    forall i | 0 <= i < k ensures Means(samples, k)[i] == MinuteMean(samples, i) { MeansAt(samples, k, i); }
    forall i | 0 <= i < k - first ensures Recent(Means(samples, k))[i] == LastHour(samples, k)[i] {
      assert Recent(Means(samples, k))[i] == Means(samples, k)[first + i];
    }
  }

  /**
   * The score is the distance of mean and forecast in units of their sum, zero if that is not positive, and anomalous
   * if they are more than a factor 31/19 apart.
   */
  predicate IsRatio(a: Anomaly, forecast: real, mean: real) {
    if forecast + mean <= 0.0 then a == Anomaly(0.0, false)
    else
      && a.score * (forecast + mean) == (if forecast < mean then mean - forecast else forecast - mean)
      && (a.anomalous <==> 19.0 * forecast > 31.0 * mean || 19.0 * mean > 31.0 * forecast)
  }

  lemma JudgeIsRatio(forecast: real, mean: real)
    ensures IsRatio(Judge(true, forecast, mean), forecast, mean)
  {
    AnomalyIsARatio(forecast, mean);
    if forecast + mean > 0.0 { QuotientTimes(Abs(forecast - mean), forecast + mean); }
  }

  lemma HourMean(samples: seq<real>, k: nat)
    requires k > 0 && SIZE * k <= |samples|
    ensures TrueMean(Recent(Means(samples, k))) == Sum(LastHour(samples, k)) / |LastHour(samples, k)| as real
  {
    RecentIsLastHour(samples, k);
  }

  lemma LastMinute(samples: seq<real>, k: nat)
    requires |samples| == 60 * k + 60
    ensures TrueMean(samples[|samples| - SIZE..]) == MinuteMean(samples, k)
  {
    assert samples[|samples| - SIZE..] == samples[60 * k..60 * k + 60];
  }

  /** The means by which the report after minute `k` judges it. */
  lemma ReportJudges(samples: seq<real>, k: nat, forecast: real, mean: real)
    requires k > 0 && |samples| == 60 * k + 60
    requires forecast == TrueMean(Recent(Means(samples, k))) && mean == TrueMean(samples[|samples| - SIZE..])
    ensures Report(samples) == Some(Judge(true, forecast, mean))
  {
    assert |samples| / SIZE - 1 == k && |samples| % SIZE == 0;
    assert Means(samples, k) != [];
  }

  /** A report follows each completed minute, and the first minute has nothing to be compared with. */
  lemma FirstReportIsQuiet(samples: seq<real>)
    ensures Report(samples).Some? <==> samples != [] && |samples| % 60 == 0
    ensures |samples| == 60 ==> Report(samples) == Some(Anomaly(0.0, false))
  {
    assert |samples| == 60 ==> Means(samples, 0) == [];
  }

  /** From the second minute on a minute is judged by its mean and that of the up to 60 minutes before it. */
  lemma ReportIsARatio(samples: seq<real>, k: nat)
    requires k > 0 && |samples| == 60 * k + 60
    ensures var forecast := Sum(LastHour(samples, k)) / |LastHour(samples, k)| as real;
            Report(samples).Some? && IsRatio(Report(samples).value, forecast, MinuteMean(samples, k))
  {
    var forecast, mean := TrueMean(Recent(Means(samples, k))), TrueMean(samples[|samples| - SIZE..]);
    HourMean(samples, k);
    LastMinute(samples, k);
    ReportJudges(samples, k, forecast, mean);
    JudgeIsRatio(forecast, mean);
  }

  method WindowMean(r: Ring<real>) returns (mean: real)
    requires r.Valid() && (r.size == SIZE || (r.Clean() && r.zero == 0.0))
    ensures mean == TrueMean(Recent(r.added))
  {
    ShortcutIsRight(r);
    mean := Mean(r);
  }

  method Rate(known: bool, forecast: real, mean: real) returns (a: Anomaly)
    ensures a == Judge(known, forecast, mean)
  {
    var score := 0.0;
    if known {
      var sum := forecast + mean;
      if sum > 0.0 {
        score := Abs(forecast - mean) / (forecast + mean);
      }
    }
    a := Anomaly(score, score > 0.24);
  }

  /** Closes a full minute: its mean joins the hour, whose mean before that is the forecast. */
  method CloseMinute(minute: Ring<real>, hour: Ring<real>) returns (known: bool, forecast: real, mean: real)
    requires minute.Valid() && minute.size == SIZE && hour.Valid() && hour.Clean() && hour.zero == 0.0
    requires minute != hour && minute.buf != hour.buf
    modifies minute, hour, hour.buf
    ensures known == (old(hour.added) != [])
    ensures forecast == TrueMean(Recent(old(hour.added))) && mean == TrueMean(Recent(old(minute.added)))
    ensures minute.Valid() && minute.added == []
    ensures hour.Valid() && hour.Clean() && hour.added == old(hour.added) + [mean]
  {
    mean := WindowMean(minute);
    forecast := WindowMean(hour);
    known := hour.size > 0;
    hour.Add(mean);
    minute.Reset();
  }

  /** The two windows after a history of samples. */
  ghost predicate Windows(samples: seq<real>, minute: seq<real>, hour: seq<real>) {
    && SIZE * Blocks(|samples|) <= |samples|
    && minute == samples[SIZE * Blocks(|samples|)..]
    && hour == Means(samples, Blocks(|samples|))
  }

  lemma NextSample(samples: seq<real>, minute: seq<real>, hour: seq<real>, time: real)
    requires Windows(samples, minute, hour)
    ensures |minute| <= SIZE
    ensures if |minute| == SIZE
            then Report(samples) == Some(Judge(hour != [], TrueMean(Recent(hour)), TrueMean(Recent(minute))))
                 && Windows(samples + [time], [time], hour + [TrueMean(Recent(minute))])
            else Report(samples) == None && Windows(samples + [time], minute + [time], hour)
  {
    BlocksNext(|samples|);
    if |minute| == SIZE { ClosingSpec(samples, minute, hour); }
    MeansOfPrefix(samples, [time], Blocks(|samples| + 1));
  }

  ghost predicate Ready(minute: Ring<real>, hour: Ring<real>)
    reads minute, minute.buf, hour, hour.buf
  {
    minute != hour && minute.buf != hour.buf && minute.Valid() && hour.Valid() && hour.Clean() && hour.zero == 0.0
  }

  method AddSample(minute: Ring<real>, hour: Ring<real>, time: real, ghost samples: seq<real>)
    returns (a: Option<Anomaly>)
    requires Ready(minute, hour) && Windows(samples, minute.added, hour.added)
    modifies minute, minute.buf, hour, hour.buf
    ensures Ready(minute, hour) && Windows(samples + [time], minute.added, hour.added)
    ensures a == Report(samples)
  {
    NextSample(samples, minute.added, hour.added, time);
    if minute.size == SIZE {
      var report := StartMinute(minute, hour, time);
      a := Some(report);
    } else {
      minute.Add(time);
      a := None;
    }
  }

  /** The first sample after a full minute. */
  method StartMinute(minute: Ring<real>, hour: Ring<real>, time: real) returns (a: Anomaly)
    requires Ready(minute, hour) && minute.size == SIZE
    modifies minute, minute.buf, hour, hour.buf
    ensures Ready(minute, hour) && minute.added == [time]
    ensures var mean := TrueMean(Recent(old(minute.added)));
            && a == Judge(old(hour.added) != [], TrueMean(Recent(old(hour.added))), mean)
            && hour.added == old(hour.added) + [mean]
  {
    var known, forecast, mean := CloseMinute(minute, hour);
    a := Rate(known, forecast, mean);
    minute.Add(time);
  }

  /** The windows of one application. */
  class AppInfo {
    const metrics: Ring<string>
    const errors: Ring<string>
    const lastMinute: Ring<real>
    const lastHour: Ring<real>
    ghost var samples: seq<real>

    ghost predicate Valid()
      reads this, metrics, metrics.buf, errors, errors.buf, lastMinute, lastMinute.buf, lastHour, lastHour.buf
    {
      && metrics != errors && metrics.buf != errors.buf
      && metrics.Valid() && errors.Valid() && Ready(lastMinute, lastHour)
      && Windows(samples, lastMinute.added, lastHour.added)
    }

    constructor ()
      ensures Valid() && samples == []
    {
      metrics := new Ring<string>("");
      errors := new Ring<string>("");
      lastMinute := new Ring<real>(0.0);
      lastHour := new Ring<real>(0.0);
      samples := [];
    }

    /**
     * A performance message. Whatever came before, it reports an anomaly value
     * exactly when it follows a complete block of 60 samples, and the value is
     * the one the sample history determines.
     */
    method OnPerf(data: string, time: Option<real>) returns (a: Option<Anomaly>)
      requires Valid()
      modifies this, metrics, metrics.buf, lastMinute, lastMinute.buf, lastHour, lastHour.buf
      ensures Valid() && metrics.added == old(metrics.added) + [data] && errors.added == old(errors.added)
      ensures samples == old(samples) + if time.Some? then [time.value] else []
      ensures a == if time.Some? then Report(old(samples)) else None
    {
      metrics.Add(data);
      a := None;
      if time.Some? {
        a := AddSample(lastMinute, lastHour, time.value, samples);
        samples := samples + [time.value];
      }
    }

    method OnError(data: string)
      requires Valid()
      modifies errors, errors.buf
      ensures Valid() && errors.added == old(errors.added) + [data]
      ensures metrics.added == old(metrics.added) && samples == old(samples)
    {
      errors.Add(data);
    }
  }
}
