/**
 * The band summariser of the Seeun visualiser: each tick the analyser's
 * byte buffer is cut into a lower and an upper half, each half is reduced
 * to its maximum and its mean, and each statistic is divided by the
 * length of its half.
 */
module Bands {

  /** One sample of `getByteTimeDomainData`: an unsigned byte. */
  type Byte = b: int | 0 <= b < 256

  datatype Option<T> = None | Some(value: T)

  /** The analyser is configured with this transform size. */
  const FftSize: nat := 2048

  /** `frequencyBinCount`: the length of the buffer read every tick. */
  const BinCount: nat := FftSize / 2

  /** The four normalised statistics of one analysis frame. */
  datatype BandStats = BandStats(lowerMaxFr: real, lowerAvgFr: real, upperMaxFr: real, upperAvgFr: real)

  /** `reduce((sum, b) => sum + b)`: a left fold of addition. */
  function Sum(s: seq<Byte>): (t: int)
    ensures 0 <= t <= 255 * |s|
  {
    if |s| == 0 then 0 else Sum(s[..|s| - 1]) + s[|s| - 1]
  }

  /** `max`: `reduce((a, b) => Math.max(a, b))` with no initial value. */
  function Max(s: seq<Byte>): (m: Byte)
    requires |s| > 0
    ensures m in s
    ensures forall i :: 0 <= i < |s| ==> s[i] <= m
  {
    if |s| == 1 then s[0]
    else
      var m' := Max(s[..|s| - 1]);
      if m' >= s[|s| - 1] then m' else s[|s| - 1]
  }

  /** A sum of samples bounded by `m` is at most `|s| * m`. */
  lemma {:induction false} SumAtMost(s: seq<Byte>, m: int)
    requires forall i :: 0 <= i < |s| ==> s[i] <= m
    ensures Sum(s) <= |s| * m
  {
    if |s| > 0 {
      SumAtMost(s[..|s| - 1], m);
      assert (|s| - 1) * m + m == |s| * m;
    }
  }

  /** `avg`: the sum divided by the length; it never exceeds the maximum. */
  function Avg(s: seq<Byte>): (a: real)
    requires |s| > 0
    ensures 0.0 <= a <= Max(s) as real
  {
    SumAtMost(s, Max(s));
    QuotientAtMost(Sum(s) as real, |s| as real, Max(s) as real);
    Sum(s) as real / |s| as real
  }

  lemma QuotientAtMost(t: real, n: real, m: real)
    requires n > 0.0 && 0.0 <= t <= n * m
    ensures 0.0 <= t / n <= m
  {
    var q := t / n;
    assert q * n == t;
    if q > m {
      assert (q - m) * n > 0.0;
    }
  }

  /** Where the lower half ends: `length/2 - 1`, truncated by `slice`. */
  function SplitIndex(n: nat): nat
  {
    if n >= 2 then n / 2 - 1 else 0
  }

  /** Where the upper half ends: `length - 1`, which `slice` clamps at 0. */
  function LastIndex(n: nat): nat
  {
    if n >= 1 then n - 1 else 0
  }

  /** `dataArray.slice(0, length/2 - 1)`. */
  function LowerHalf(frame: seq<Byte>): seq<Byte>
  {
    frame[..SplitIndex(|frame|)]
  }

  /** `dataArray.slice(length/2 - 1, length - 1)`. */
  function UpperHalf(frame: seq<Byte>): seq<Byte>
  {
    frame[SplitIndex(|frame|)..LastIndex(|frame|)]
  }

  /**
   * The two halves are adjacent, the lower one has `N/2 - 1` samples and
   * the upper one `N - N/2`, and the last sample belongs to neither.
   */
  lemma SplitCovers(frame: seq<Byte>)
    requires |frame| >= 2
    ensures |LowerHalf(frame)| == |frame| / 2 - 1
    ensures |UpperHalf(frame)| == |frame| - |frame| / 2
    ensures |LowerHalf(frame)| + |UpperHalf(frame)| == |frame| - 1
    ensures LowerHalf(frame) + UpperHalf(frame) + [frame[|frame| - 1]] == frame
  {
    assert LowerHalf(frame) + UpperHalf(frame) == frame[..|frame| - 1];
  }

  /** For the configured analyser the halves hold 511 and 512 samples. */
  lemma SplitOfBinCount(frame: seq<Byte>)
    requires |frame| == BinCount
    ensures |LowerHalf(frame)| == 511 && |UpperHalf(frame)| == 512
  {
    SplitCovers(frame);
  }

  /** Both halves are non-empty exactly when the frame has at least 4 samples. */
  lemma HalvesNonEmpty(frame: seq<Byte>)
    ensures |LowerHalf(frame)| > 0 && |UpperHalf(frame)| > 0 <==> |frame| >= 4
  {
  }

  /**
   * The statistics of a frame whose lower half has `lowerLen` samples and
   * whose upper half has `upperLen`: each mean lies between 0 and the
   * maximum of its half, and each maximum is a byte divided by the length.
   */
  ghost predicate Bounded(st: BandStats, lowerLen: nat, upperLen: nat)
  {
    && lowerLen > 0 && upperLen > 0
    && 0.0 <= st.lowerAvgFr <= st.lowerMaxFr <= 255.0 / lowerLen as real
    && 0.0 <= st.upperAvgFr <= st.upperMaxFr <= 255.0 / upperLen as real
  }

  /**
   * The statistics of one tick. The reductions throw on an empty half,
   * which happens exactly for frames shorter than 4 samples: `None`.
   */
  function Summarize(frame: seq<Byte>): (r: Option<BandStats>)
    ensures r.Some? <==> |frame| >= 4
    ensures r.Some? ==> Bounded(r.value, |LowerHalf(frame)|, |UpperHalf(frame)|)
  {
    var lower, upper := LowerHalf(frame), UpperHalf(frame);
    if |lower| == 0 || |upper| == 0 then None
    else
      var ll, ul := |lower| as real, |upper| as real;
      var st := BandStats(Max(lower) as real / ll, Avg(lower) / ll,
                          Max(upper) as real / ul, Avg(upper) / ul);
      HalvesNonEmpty(frame);
      HalfStats(lower);
      HalfStats(upper);
      Some(st)
  }

  /** The two fractions of one non-empty half: `0 <= avg/len <= max/len <= 255/len`. */
  lemma HalfStats(h: seq<Byte>)
    requires |h| > 0
    ensures var n := |h| as real;
      0.0 <= Avg(h) / n <= Max(h) as real / n <= 255.0 / n
  {
    var n := |h| as real;
    DivideMonotone(Avg(h), Max(h) as real, n);
    DivideMonotone(Max(h) as real, 255.0, n);
  }

  lemma DivideMonotone(a: real, b: real, d: real)
    requires 0.0 <= a <= b && d > 0.0
    ensures 0.0 <= a / d <= b / d
  {
  }

  /** A constant frame (silence reads as 128 everywhere) has that constant as sum per sample. */
  lemma {:induction false} SumOfConstant(s: seq<Byte>, c: Byte)
    requires forall i :: 0 <= i < |s| ==> s[i] == c
    ensures Sum(s) == |s| * c
  {
    if |s| > 0 {
      SumOfConstant(s[..|s| - 1], c);
      assert (|s| - 1) * c + c == |s| * c;
    }
  }

  /** On a constant half the mean equals the maximum equals the constant. */
  lemma ConstantStats(s: seq<Byte>, c: Byte)
    requires |s| > 0
    requires forall i :: 0 <= i < |s| ==> s[i] == c
    ensures Max(s) == c && Avg(s) == c as real
  {
    assert Max(s) == c by { assert Max(s) in s; }
    SumOfConstant(s, c);
    DivExact(Sum(s), |s|, c);
  }

  lemma DivExact(t: int, n: int, c: int)
    requires n > 0 && t == n * c
    ensures t as real / n as real == c as real
  {
    assert t as real == n as real * c as real;
  }
}
