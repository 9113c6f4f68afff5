/**
 * The position updates of the Seeun visualiser. While the audio is
 * paused every particle's `y` is nudged by a fixed step toward zero; while
 * it plays, the `y` of the first particles follows a sine of the lower
 * band's accumulated energy, and the trailing third of the flat buffer is
 * folded through a sine scalar by scalar. Resuming playback re-places the
 * middle third of the buffer at random.
 */
module PositionWave {
  import opened Particles

  /** `Math.sin` is known only by its range. */
  ghost predicate SineRange(sin: real -> real)
  {
    forall x :: -1.0 <= sin(x) <= 1.0
  }

  /** The idle path's `speed`: how far a `y` moves toward zero per paused tick. */
  const SettleStep: real := 0.01

  function Abs(x: real): real
  {
    if x < 0.0 then -x else x
  }

  /** One paused tick on one `y`: a non-zero value moves one step toward zero, with no clamp. */
  function SettleY(y: real): real
  {
    if Abs(y) > 0.0 then
      if y > 0.0 then y - SettleStep else y + SettleStep
    else y
  }

  /** One paused tick on the position buffer: only the `y` of every particle changes. */
  function Settled(p: seq<real>): (q: seq<real>)
    ensures |q| == |p|
  {
    seq(|p|, i requires 0 <= i < |p| => if i % 3 == 1 then SettleY(p[i]) else p[i])
  }

  /**
   * One paused tick, coordinate by coordinate: `x` and `z` stay, a
   * positive `y` drops by exactly one step, a negative one rises by
   * exactly one step, and a zero `y` stays zero.
   */
  lemma SettledStep(p: seq<real>, i: nat)
    requires i < |p|
    ensures i % 3 != 1 ==> Settled(p)[i] == p[i]
    ensures i % 3 == 1 && p[i] > 0.0 ==> Settled(p)[i] == p[i] - SettleStep
    ensures i % 3 == 1 && p[i] < 0.0 ==> Settled(p)[i] == p[i] + SettleStep
    ensures i % 3 == 1 && p[i] == 0.0 ==> Settled(p)[i] == 0.0
  {
  }

  /** A `y` after `n` paused ticks. */
  function SettleTimes(y: real, n: nat): real
    decreases n
  {
    if n == 0 then y else SettleTimes(SettleY(y), n - 1)
  }

  /**
   * The position buffer after `n` paused ticks. Its contract says only that
   * the length is kept; the contents are stated by `SettledTimesAt`.
   */
  function SettledTimes(p: seq<real>, n: nat): (q: seq<real>)
    ensures |q| == |p|
    decreases n
  {
    if n == 0 then p else SettledTimes(Settled(p), n - 1)
  }

  /**
   * A `y` at least `n` steps away from zero keeps its sign and comes
   * exactly `n` steps closer in `n` paused ticks.
   */
  lemma {:induction false} SettleApproaches(y: real, n: nat)
    requires (n as real) * SettleStep <= Abs(y)
    ensures Abs(SettleTimes(y, n)) == Abs(y) - (n as real) * SettleStep
    ensures y > 0.0 ==> SettleTimes(y, n) >= 0.0
    ensures y < 0.0 ==> SettleTimes(y, n) <= 0.0
    decreases n
  {
    if n > 0 {
      SettleApproaches(SettleY(y), n - 1);
    }
  }

  /** Zero is a fixed point of the idle path. */
  lemma {:induction false} SettleZero(n: nat)
    ensures SettleTimes(0.0, n) == 0.0
  {
    if n > 0 {
      SettleZero(n - 1);
    }
  }

  /**
   * Because the step is not clamped, a `y` closer to zero than one step
   * crosses zero and comes back: it never reaches zero, and it is back
   * where it was after every even number of paused ticks.
   */
  lemma {:induction false} SettleOscillates(y: real, n: nat)
    requires 0.0 < Abs(y) < SettleStep
    ensures SettleTimes(y, 2 * n) == y
    ensures 0.0 < Abs(SettleTimes(y, n)) < SettleStep
    decreases n
  {
    if n > 0 {
      var y' := SettleY(y);
      assert SettleY(y') == y;
      SettleOscillates(y', n - 1);
      SettleOscillates(y, n - 1);
      assert SettleTimes(y, 2 * n) == SettleTimes(y', 2 * n - 1) == SettleTimes(y, 2 * n - 2);
    }
  }

  /** After `n` paused ticks each `y` has settled `n` times and `x`, `z` are untouched. */
  lemma {:induction false} SettledTimesAt(p: seq<real>, n: nat, i: nat)
    requires i < |p|
    ensures SettledTimes(p, n)[i] == if i % 3 == 1 then SettleTimes(p[i], n) else p[i]
    decreases n
  {
    if n > 0 {
      SettledTimesAt(Settled(p), n - 1, i);
    }
  }

  /** The idle path leaves the buffer as it is exactly when every `y` is already zero. */
  lemma SettledFixedPoint(p: seq<real>)
    ensures Settled(p) == p <==> forall i :: 0 <= i < |p| && i % 3 == 1 ==> p[i] == 0.0
  {
    if Settled(p) == p {
      forall i | 0 <= i < |p| && i % 3 == 1 ensures p[i] == 0.0 {
        assert Settled(p)[i] == SettleY(p[i]);
      }
    }
  }

  /** The indices the first playing loop writes: `i + 1` for `i = 0, 3, ...` below `Count`. */
  predicate HeightIndex(i: int)
  {
    i % 3 == 1 && 1 <= i <= Count
  }

  /** The indices the second playing loop writes: `[2 * Count, 3 * Count)`. */
  predicate TailIndex(i: int)
  {
    2 * Count <= i < 3 * Count
  }

  /** The first playing loop: `y = sin(lowerSum + x)` for the particles it reaches. */
  function Heights(p: seq<real>, phase: real, sin: real -> real): (q: seq<real>)
    ensures |q| == |p|
  {
    seq(|p|, i requires 0 <= i < |p| => if HeightIndex(i) then sin(phase + p[i - 1]) else p[i])
  }

  /** `(Math.random() - 0.5) / 10000`: the jitter added before the sine. */
  function Jitter(rand: real): real
  {
    (rand - 0.5) / 10000.0
  }

  /** A draw in `[0, 1)` jitters the sine's argument by less than `0.00005` either way. */
  lemma JitterSmall(rand: real)
    requires 0.0 <= rand < 1.0
    ensures -0.00005 <= Jitter(rand) < 0.00005
  {
  }

  /** The second playing loop: every scalar of the trailing third becomes `5 * sin(v + jitter)`. */
  function Tail(p: seq<real>, sin: real -> real, jitter: seq<real>): (q: seq<real>)
    requires |p| == BufferLength && |jitter| == Count
    ensures |q| == |p|
  {
    seq(|p|, i requires 0 <= i < |p| => if TailIndex(i) then sin(p[i] + Jitter(jitter[i - 2 * Count])) * 5.0 else p[i])
  }

  /** Both playing loops, in the order the tick runs them. */
  function Wave(p: seq<real>, phase: real, sin: real -> real, jitter: seq<real>): seq<real>
    requires |p| == BufferLength && |jitter| == Count
  {
    Tail(Heights(p, phase, sin), sin, jitter)
  }

  /**
   * What a playing tick does to the position buffer: the `y` of particles
   * 0 to 83 (indices 1, 4, ..., 250) becomes the sine of the phase plus
   * that particle's unchanged `x`, in `[-1, 1]`; every scalar of the
   * trailing third is rewritten from its own old value into `[-5, 5]`; no
   * other coordinate changes.
   */
  lemma WaveWrites(p: seq<real>, phase: real, sin: real -> real, jitter: seq<real>)
    requires |p| == BufferLength && |jitter| == Count && SineRange(sin)
    ensures var q := Wave(p, phase, sin, jitter);
      && |q| == |p|
      && (forall i :: 0 <= i < |p| && HeightIndex(i) ==> q[i] == sin(phase + p[i - 1]) && -1.0 <= q[i] <= 1.0)
      && (forall i :: 0 <= i < |p| && TailIndex(i) ==>
            q[i] == 5.0 * sin(p[i] + Jitter(jitter[i - 2 * Count])) && -5.0 <= q[i] <= 5.0)
      && (forall i :: 0 <= i < |p| && !HeightIndex(i) && !TailIndex(i) ==> q[i] == p[i])
  {
    var h := Heights(p, phase, sin);
    forall i | 0 <= i < |p| && TailIndex(i)
      ensures h[i] == p[i]
    {
    }
  }

  /** The first loop reaches 84 particles: the last `y` it writes is index 250 and index 253 is left alone. */
  lemma HeightsReach()
    ensures HeightIndex(3 * 83 + 1) && !HeightIndex(3 * 84 + 1)
  {
  }

  /** Resuming playback re-places the middle third of the buffer at random. */
  function Reseeded(p: seq<real>, rands: seq<real>): (q: seq<real>)
    requires |p| == BufferLength && |rands| == Count && Uniform(rands)
    ensures |q| == |p|
    ensures forall i :: Count <= i < 2 * Count ==> -5.0 <= q[i] < 5.0
    ensures forall i :: 0 <= i < |p| && !(Count <= i < 2 * Count) ==> q[i] == p[i]
  {
    var q := seq(|p|, i requires 0 <= i < |p| => if Count <= i < 2 * Count then Spread(rands[i - Count]) else p[i]);
    assert forall i :: Count <= i < 2 * Count ==> q[i] == Spread(rands[i - Count]);
    q
  }
}
