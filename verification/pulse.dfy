/**
 * The scalar drives of the Seeun visualiser: the two energy sums that
 * grow with the band means while the audio plays, the particle field's
 * rotation derived from the lower sum, the companion sphere's spin, and
 * the sphere's scale, recomputed from the band maxima on every tick.
 */
module Pulse {
  import opened Bands
  import opened Particles

  /** `lowerSum` and `upperSum` grow by the band mean over this divisor per playing tick. */
  const SumDivisor: real := 100.0

  /** The sphere's `rotation.y` grows by the lower mean over this divisor per playing tick. */
  const SpinDivisor: real := 500.0

  /** The sphere's scale before any band contributes. */
  const BaseScale: real := 3.0

  /**
   * A running sum after a sequence of playing ticks, the `k`-th of which
   * added `fracs[k] / divisor` (paused ticks add nothing).
   */
  function Accumulate(start: real, fracs: seq<real>, divisor: real): real
    requires divisor > 0.0
  {
    if fracs == [] then start
    else Accumulate(start, fracs[..|fracs| - 1], divisor) + fracs[|fracs| - 1] / divisor
  }

  /** With non-negative band means the sums never decrease, tick after tick. */
  lemma {:induction false} AccumulateMonotone(start: real, fracs: seq<real>, divisor: real, k: nat)
    requires divisor > 0.0 && k <= |fracs|
    requires forall i :: 0 <= i < |fracs| ==> fracs[i] >= 0.0
    ensures start <= Accumulate(start, fracs[..k], divisor) <= Accumulate(start, fracs, divisor)
    decreases |fracs|
  {
    if fracs != [] {
      var init := fracs[..|fracs| - 1];
      assert fracs[|fracs| - 1] / divisor >= 0.0;
      if k == |fracs| {
        assert fracs[..k] == fracs;
        AccumulateMonotone(start, init, divisor, |init|);
        assert init[..|init|] == init;
      } else {
        assert init[..k] == fracs[..k];
        AccumulateMonotone(start, init, divisor, k);
      }
    }
  }

  /** A mean held at `c` for `n` playing ticks adds exactly `n * c / divisor`. */
  lemma {:induction false} AccumulateConstant(start: real, c: real, n: nat, divisor: real)
    requires divisor > 0.0
    ensures Accumulate(start, seq(n, _ => c), divisor) == start + (n as real) * c / divisor
    decreases n
  {
    if n > 0 {
      var fracs := seq(n, _ => c);
      assert fracs[..n - 1] == seq(n - 1, _ => c);
      AccumulateConstant(start, c, n - 1, divisor);
      assert (n as real) * c / divisor == ((n - 1) as real) * c / divisor + c / divisor;
    }
  }

  /**
   * Band means of 1 held for 1000 playing ticks bring a sum from 0 to
   * exactly 10, over reals. This is about the accumulation formula only:
   * no frame the analyser delivers has a mean fraction of 1 (each is at
   * most `255 / 511`).
   */
  lemma ThousandTicks()
    ensures Accumulate(0.0, seq(1000, _ => 1.0), SumDivisor) == 10.0
  {
    AccumulateConstant(0.0, 1.0, 1000, SumDivisor);
  }

  /** The particle field's rotation while playing: every axis at a tenth of the lower sum. */
  function FieldRotation(lowerSum: real): (r: Vec3)
    ensures r.x == r.y == r.z
    ensures lowerSum >= 0.0 ==> 0.0 <= r.x <= lowerSum
  {
    var a := lowerSum * 0.1;
    Vec3(a, a, a)
  }

  /** The sphere's uniform scale on every tick, paused or playing. */
  function SphereScale(st: BandStats): real
  {
    BaseScale + st.lowerMaxFr / 2.0 + st.upperMaxFr / 2.0
  }

  /**
   * For any frame the analyser can deliver, the sphere's scale is at
   * least its base and grows by at most half of `255 / len` per half.
   */
  lemma SphereScaleBounds(frame: seq<Byte>)
    requires |frame| >= 4
    ensures var s := SphereScale(Summarize(frame).value);
      && var ll, ul := |LowerHalf(frame)| as real, |UpperHalf(frame)| as real;
      && BaseScale <= s <= BaseScale + 255.0 / (2.0 * ll) + 255.0 / (2.0 * ul)
  {
    var ll, ul := |LowerHalf(frame)| as real, |UpperHalf(frame)| as real;
    assert 255.0 / ll / 2.0 == 255.0 / (2.0 * ll);
    assert 255.0 / ul / 2.0 == 255.0 / (2.0 * ul);
  }

  /** For the configured analyser the scale stays within `[3, 3 + 255/1022 + 255/1024]`. */
  lemma SphereScaleOfBinCount(frame: seq<Byte>)
    requires |frame| == BinCount
    ensures BaseScale <= SphereScale(Summarize(frame).value) <= BaseScale + 255.0 / 1022.0 + 255.0 / 1024.0
  {
    SplitOfBinCount(frame);
    SphereScaleBounds(frame);
  }

  /**
   * Band maxima of 0.4 and 0.6 give a scale of 3.5 on every axis. This is
   * about the scale formula only: for a 1024-sample frame every fraction
   * is below 0.5, so no delivered frame has an upper maximum of 0.6.
   */
  lemma SphereScaleExample(lowerAvgFr: real, upperAvgFr: real)
    ensures SphereScale(BandStats(0.4, lowerAvgFr, 0.6, upperAvgFr)) == 3.5
  {
  }
}
