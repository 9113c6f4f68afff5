/**
 * The colour drift of the Seeun visualiser. On every playing tick each
 * particle's `r, g, b` take one random step up or down, scaled by a band
 * statistic; one direction flag per channel is shared by all particles and
 * kept across ticks, and it is flipped against fixed bounds after every
 * particle (a hysteresis gate, not a clamp).
 */
module ColorDrift {
  import opened Bands
  import opened Particles

  /** Channel bounds of the hysteresis gate. */
  const RMax: real := 0.492
  const RMin: real := 0.292
  const GMax: real := 0.496
  const GMin: real := 0.296
  const BMax: real := 0.750
  const BMin: real := 0.550

  /** `Math.random() * 0.002`: the step size drawn for one particle. */
  const StepScale: real := 0.002

  /** The shared direction flags `rState`, `gState`, `bState`; true means ascending. */
  datatype Flags = Flags(r: bool, g: bool, b: bool)

  datatype Rgb = Rgb(r: real, g: real, b: real)

  /** The colour every particle starts with, and the flags' initial value. */
  const InitialColor: Rgb := Rgb(0.392, 0.396, 0.650)
  const InitialFlags: Flags := Flags(false, false, false)

  datatype Channel = Red | Green | Blue

  function Lo(ch: Channel): real
  {
    match ch
    case Red => RMin
    case Green => GMin
    case Blue => BMin
  }

  function Hi(ch: Channel): real
  {
    match ch
    case Red => RMax
    case Green => GMax
    case Blue => BMax
  }

  function Flag(f: Flags, ch: Channel): bool
  {
    match ch
    case Red => f.r
    case Green => f.g
    case Blue => f.b
  }

  function Value(c: Rgb, ch: Channel): real
  {
    match ch
    case Red => c.r
    case Green => c.g
    case Blue => c.b
  }

  /** The channel a flat-buffer index holds: `r, g, b` interleaved. */
  function ChannelOf(k: nat): Channel
  {
    if k % 3 == 0 then Red else if k % 3 == 1 then Green else Blue
  }

  /** The statistic that scales a channel's step: red and blue follow the lower band, green the upper. */
  function Drive(st: BandStats, ch: Channel): real
  {
    match ch
    case Red => st.lowerMaxFr
    case Green => st.upperMaxFr
    case Blue => st.lowerAvgFr
  }

  /** The initial colour lies strictly inside every channel's bounds. */
  lemma InitialColorInBounds(ch: Channel)
    ensures Lo(ch) < Value(InitialColor, ch) < Hi(ch)
  {
  }

  /** One channel's move: up by `delta` when ascending, down otherwise. */
  function Nudge(c: real, up: bool, delta: real): real
  {
    if up then c + delta else c - delta
  }

  /** The flag after a channel took value `v`: the `> max` test runs before the `< min` test. */
  function Gate(flag: bool, v: real, lo: real, hi: real): bool
  {
    var f := if v > hi then false else flag;
    if v < lo then true else f
  }

  /** Hysteresis: above the bounds the flag turns descending, below it turns ascending, between them it holds. */
  lemma GateHysteresis(flag: bool, v: real, ch: Channel)
    ensures v > Hi(ch) ==> !Gate(flag, v, Lo(ch), Hi(ch))
    ensures v < Lo(ch) ==> Gate(flag, v, Lo(ch), Hi(ch))
    ensures Lo(ch) <= v <= Hi(ch) ==> Gate(flag, v, Lo(ch), Hi(ch)) == flag
  {
  }

  /** One iteration of the colour loop: the particle's new colour and the flags after it. */
  function Step(flags: Flags, c: Rgb, st: BandStats, rand: real): (Flags, Rgb)
  {
    var randNum := rand * StepScale;
    var c' := Rgb(Nudge(c.r, flags.r, st.lowerMaxFr * randNum),
                  Nudge(c.g, flags.g, st.upperMaxFr * randNum),
                  Nudge(c.b, flags.b, st.lowerAvgFr * randNum));
    (Flags(Gate(flags.r, c'.r, RMin, RMax),
           Gate(flags.g, c'.g, GMin, GMax),
           Gate(flags.b, c'.b, BMin, BMax)), c')
  }

  /**
   * Per channel, a step moves the value by exactly `Drive * rand * 0.002`,
   * upwards iff the channel's flag is set (strictly, when the step is not
   * zero), and then gates the flag on the new value.
   */
  lemma StepMoves(flags: Flags, c: Rgb, st: BandStats, rand: real, ch: Channel)
    requires 0.0 <= rand < 1.0 && Drive(st, ch) >= 0.0
    ensures var (f', c') := Step(flags, c, st, rand);
      && var delta := Value(c', ch) - Value(c, ch);
      && (Flag(flags, ch) ==> delta == Drive(st, ch) * rand * StepScale)
      && (!Flag(flags, ch) ==> delta == -(Drive(st, ch) * rand * StepScale))
      && (Drive(st, ch) * rand > 0.0 ==> (delta > 0.0 <==> Flag(flags, ch)) && (delta < 0.0 <==> !Flag(flags, ch)))
      && -StepScale * Drive(st, ch) <= delta <= StepScale * Drive(st, ch)
      && Flag(f', ch) == Gate(Flag(flags, ch), Value(c', ch), Lo(ch), Hi(ch))
  {
    var d := Drive(st, ch);
    ProductAtMost(d, rand);
    ScaleAssociates(d, rand);
    match ch
    case Red =>
    case Green =>
    case Blue =>
  }

  lemma ScaleAssociates(d: real, rand: real)
    ensures d * (rand * StepScale) == d * rand * StepScale
  {
  }

  lemma ProductAtMost(d: real, rand: real)
    requires d >= 0.0 && 0.0 <= rand <= 1.0
    ensures 0.0 <= d * rand <= d
  {
    assert d * (1.0 - rand) >= 0.0;
  }

  /** The colour of particle `j` in a flat buffer. */
  function ColorAt(cs: seq<real>, j: nat): Rgb
    requires 3 * j + 2 < |cs|
  {
    Rgb(cs[3 * j], cs[3 * j + 1], cs[3 * j + 2])
  }

  /** The flat buffer with particle `j`'s colour replaced. */
  function WithColor(cs: seq<real>, j: nat, c: Rgb): (cs': seq<real>)
    requires 3 * j + 2 < |cs|
    ensures |cs'| == |cs| && ColorAt(cs', j) == c
  {
    cs[3 * j := c.r][3 * j + 1 := c.g][3 * j + 2 := c.b]
  }

  /** Replacing particle `j`'s colour leaves every other particle's colour as it was. */
  lemma WithColorElsewhere(cs: seq<real>, j: nat, c: Rgb, m: nat)
    requires 3 * j + 2 < |cs| && 3 * m + 2 < |cs| && m != j
    ensures ColorAt(WithColor(cs, j, c), m) == ColorAt(cs, m)
  {
  }

  /** The state of the colour loop: the shared flags and the colour buffer. */
  datatype Pass = Pass(flags: Flags, colors: seq<real>)

  /**
   * The colour loop after its first `k` particles, starting from flags
   * `flags0` and buffer `cs`, with `rands[j]` the draw of particle `j`:
   * the loop's own shape, one particle after the other. Its contract says
   * only that the length is kept; what the pass computes is stated by
   * `DriftPrefixClosedForm`.
   */
  function DriftPrefix(flags0: Flags, cs: seq<real>, st: BandStats, rands: seq<real>, k: nat): (p: Pass)
    requires |cs| == 3 * |rands| && k <= |rands|
    ensures |p.colors| == |cs|
    decreases k
  {
    if k == 0 then Pass(flags0, cs)
    else
      var p := DriftPrefix(flags0, cs, st, rands, k - 1);
      var (f, c) := Step(p.flags, ColorAt(p.colors, k - 1), st, rands[k - 1]);
      Pass(f, WithColor(p.colors, k - 1, c))
  }

  /** The shared flags once the first `k` particles have stepped, each from its original colour. */
  function FlagsAfter(flags0: Flags, cs: seq<real>, st: BandStats, rands: seq<real>, k: nat): Flags
    requires |cs| == 3 * |rands| && k <= |rands|
    decreases k
  {
    if k == 0 then flags0
    else Step(FlagsAfter(flags0, cs, st, rands, k - 1), ColorAt(cs, k - 1), st, rands[k - 1]).0
  }

  /** The colour particle `j` is left with: one step from its original colour under the flags the particles before it left. */
  function Drifted(flags0: Flags, cs: seq<real>, st: BandStats, rands: seq<real>, j: nat): Rgb
    requires |cs| == 3 * |rands| && j < |rands|
  {
    Step(FlagsAfter(flags0, cs, st, rands, j), ColorAt(cs, j), st, rands[j]).1
  }

  /**
   * Each particle's colour is written exactly once. After `k` particles
   * the loop's flags are `FlagsAfter(k)`, every particle before `k` holds
   * its drifted colour, and every particle from `k` on still holds its
   * original one.
   */
  lemma {:induction false} DriftPrefixClosedForm(flags0: Flags, cs: seq<real>, st: BandStats, rands: seq<real>, k: nat, j: nat)
    requires |cs| == 3 * |rands| && k <= |rands| && j < |rands|
    ensures DriftPrefix(flags0, cs, st, rands, k).flags == FlagsAfter(flags0, cs, st, rands, k)
    ensures ColorAt(DriftPrefix(flags0, cs, st, rands, k).colors, j)
         == if j < k then Drifted(flags0, cs, st, rands, j) else ColorAt(cs, j)
    decreases k
  {
    if k > 0 {
      var p := DriftPrefix(flags0, cs, st, rands, k - 1);
      DriftPrefixClosedForm(flags0, cs, st, rands, k - 1, j);
      DriftPrefixClosedForm(flags0, cs, st, rands, k - 1, k - 1);
      if j != k - 1 {
        WithColorElsewhere(p.colors, k - 1, Step(p.flags, ColorAt(p.colors, k - 1), st, rands[k - 1]).1, j);
      }
    }
  }

  /** The value channel `ch` of particle `m` takes in the pass. */
  function Written(flags0: Flags, cs: seq<real>, st: BandStats, rands: seq<real>, m: nat, ch: Channel): real
    requires |cs| == 3 * |rands| && m < |rands|
  {
    Value(Drifted(flags0, cs, st, rands, m), ch)
  }

  /** The flag after particle `k - 1` is the gate of the flag before it on the value it wrote. */
  lemma FlagAfter(flags0: Flags, cs: seq<real>, st: BandStats, rands: seq<real>, k: nat, ch: Channel)
    requires |cs| == 3 * |rands| && 0 < k <= |rands|
    ensures Flag(FlagsAfter(flags0, cs, st, rands, k), ch)
         == Gate(Flag(FlagsAfter(flags0, cs, st, rands, k - 1), ch), Written(flags0, cs, st, rands, k - 1, ch), Lo(ch), Hi(ch))
  {
    match ch
    case Red =>
    case Green =>
    case Blue =>
  }

  /**
   * The gate's hysteresis over a run of particles: a descending flag stays
   * descending as long as no value written from particle `j` on falls
   * below the channel's minimum.
   */
  lemma {:induction false} DescendingHolds(flags0: Flags, cs: seq<real>, st: BandStats, rands: seq<real>, ch: Channel, j: nat, k: nat)
    requires |cs| == 3 * |rands| && j <= k <= |rands|
    requires !Flag(FlagsAfter(flags0, cs, st, rands, j), ch)
    requires forall m :: j <= m < k ==> Written(flags0, cs, st, rands, m, ch) >= Lo(ch)
    ensures !Flag(FlagsAfter(flags0, cs, st, rands, k), ch)
    decreases k
  {
    if j < k {
      DescendingHolds(flags0, cs, st, rands, ch, j, k - 1);
      FlagAfter(flags0, cs, st, rands, k, ch);
      var w := Written(flags0, cs, st, rands, k - 1, ch);
      assert w >= Lo(ch);
      assert !Gate(false, w, Lo(ch), Hi(ch));
    }
  }

  /** Symmetrically, an ascending flag stays ascending while no written value exceeds the maximum. */
  lemma {:induction false} AscendingHolds(flags0: Flags, cs: seq<real>, st: BandStats, rands: seq<real>, ch: Channel, j: nat, k: nat)
    requires |cs| == 3 * |rands| && j <= k <= |rands|
    requires Flag(FlagsAfter(flags0, cs, st, rands, j), ch)
    requires forall m :: j <= m < k ==> Written(flags0, cs, st, rands, m, ch) <= Hi(ch)
    ensures Flag(FlagsAfter(flags0, cs, st, rands, k), ch)
    decreases k
  {
    if j < k {
      AscendingHolds(flags0, cs, st, rands, ch, j, k - 1);
      FlagAfter(flags0, cs, st, rands, k, ch);
      var w := Written(flags0, cs, st, rands, k - 1, ch);
      assert w <= Hi(ch);
      assert Gate(true, w, Lo(ch), Hi(ch)) by { assert Lo(ch) < Hi(ch); }
    }
  }

  /**
   * While a channel's flag is descending and the drive is positive, every
   * particle the pass reaches loses some of that channel: the value it is
   * left with is strictly below the one it had.
   */
  lemma DescendingLowers(flags0: Flags, cs: seq<real>, st: BandStats, rands: seq<real>, ch: Channel, m: nat)
    requires |cs| == 3 * |rands| && m < |rands| && Uniform(rands)
    requires !Flag(FlagsAfter(flags0, cs, st, rands, m), ch)
    requires Drive(st, ch) > 0.0 && rands[m] > 0.0
    ensures Written(flags0, cs, st, rands, m, ch) < Value(ColorAt(cs, m), ch)
  {
    StepMoves(FlagsAfter(flags0, cs, st, rands, m), ColorAt(cs, m), st, rands[m], ch);
    assert Drive(st, ch) * rands[m] > 0.0;
  }
}
