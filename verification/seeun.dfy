/**
 * The per-frame update of the Seeun route: a particle field whose flat
 * position and colour buffers are rewritten in place on every tick from
 * the analyser's byte frame, the shared colour-direction flags and energy
 * sums that persist between ticks, the rotations and scale handed to the
 * renderer, and the click gate that pauses and resumes the audio.
 */
module Seeun {
  import opened Bands
  import opened Particles
  import opened ColorDrift
  import opened PositionWave
  import opened Pulse

  class Visualizer {
    /** The flat `x, y, z` buffer of the particle geometry. */
    const positions: array<real>
    /** The flat `r, g, b` buffer of the particle geometry. */
    const colors: array<real>

    /** The shared direction flags of the colour drift; true means ascending. */
    var rState: bool
    var gState: bool
    var bState: bool

    /** The energy sums that drive the wave's phase. */
    var lowerSum: real
    var upperSum: real

    /** `particles.rotation`. */
    var fieldRotation: Vec3
    /** `sphereVisualizer.rotation.y`, the only sphere rotation the tick changes. */
    var sphereRotationY: real
    /** `sphereVisualizer.scale`. */
    var sphereScale: Vec3

    /** `audio.paused`: whether the track is paused. */
    var paused: bool
    /** Whether the pointer moved since the last button press. */
    var drag: bool

    /**
     * Both buffers hold `Count` particles, the sums and the sphere's spin
     * have only ever grown from zero, and the field's rotation is either
     * zero or a tenth of the lower sum on every axis.
     */
    ghost predicate Valid()
      reads this
    {
      && positions.Length == BufferLength && colors.Length == BufferLength && positions != colors
      && 0.0 <= lowerSum && 0.0 <= upperSum && 0.0 <= sphereRotationY
      && fieldRotation.x == fieldRotation.y == fieldRotation.z
      && 0.0 <= fieldRotation.x <= lowerSum
    }

    function CurrentFlags(): Flags
      reads this
    {
      Flags(rState, gState, bState)
    }

    /** The field as set up: random positions, one colour for all, flags descending, sums at zero, audio paused. */
    constructor (rands: seq<real>)
      requires |rands| == BufferLength && Uniform(rands)
      ensures Valid() && fresh(positions) && fresh(colors)
      ensures positions[..] == InitialPositions(rands)
      ensures forall j :: 0 <= j < Count ==> ColorAt(colors[..], j) == InitialColor
      ensures CurrentFlags() == InitialFlags
      ensures lowerSum == 0.0 && upperSum == 0.0
      ensures fieldRotation == Vec3(0.0, 0.0, 0.0) && sphereRotationY == 0.0 && sphereScale == Vec3(1.0, 1.0, 1.0)
      ensures paused && !drag
    {
      positions := new real[BufferLength];
      colors := new real[BufferLength];
      rState, gState, bState := false, false, false;
      lowerSum, upperSum := 0.0, 0.0;
      fieldRotation := Vec3(0.0, 0.0, 0.0);
      sphereRotationY := 0.0;
      sphereScale := Vec3(1.0, 1.0, 1.0);
      paused, drag := true, false;
      new;
      var i := 0;
      while i < BufferLength
        modifies positions
        invariant 0 <= i <= BufferLength
        invariant forall j :: 0 <= j < i ==> positions[j] == Spread(rands[j])
      {
        positions[i] := Spread(rands[i]);
        i := i + 1;
      }
      i := 0;
      ghost var n := 0;
      while i < BufferLength
        modifies colors
        invariant 0 <= n <= Count && i == 3 * n
        invariant forall k :: 0 <= k < i ==> colors[k] == Value(InitialColor, ChannelOf(k))
      {
        colors[i] := 0.392;
        colors[i + 1] := 0.396;
        colors[i + 2] := 0.650;
        i, n := i + 3, n + 1;
      }
      forall j | 0 <= j < Count
        ensures ColorAt(colors[..], j) == InitialColor
      {
        assert ChannelOf(3 * j) == Red && ChannelOf(3 * j + 1) == Green && ChannelOf(3 * j + 2) == Blue;
      }
    }

    /** The idle path's loop: every particle's `y` moves one step toward zero. */
    method Settle()
      requires Valid()
      modifies positions
      ensures Valid()
      ensures positions[..] == Settled(old(positions[..]))
    {
      ghost var p := positions[..];
      var i := 0;
      while i < BufferLength
        invariant 0 <= i <= BufferLength && i % 3 == 0
        invariant forall j :: 0 <= j < BufferLength ==> positions[j] == if j < i then Settled(p)[j] else p[j]
      {
        var y := positions[i + 1];
        if Abs(y) > 0.0 {
          if y > 0.0 {
            positions[i + 1] := y - SettleStep;
          } else {
            positions[i + 1] := y + SettleStep;
          }
        }
        i := i + 3;
      }
    }

    /**
     * One iteration of the colour loop: particle `n`, whose red sits at
     * index `3 * n`, takes one step and the three shared flags are gated on
     * its new colour.
     */
    method StepParticle(n: nat, st: BandStats, rand: real)
      requires Valid() && n < Count
      modifies this`rState, this`gState, this`bState, colors
      ensures Valid()
      ensures var s := Step(old(CurrentFlags()), ColorAt(old(colors[..]), n), st, rand);
        CurrentFlags() == s.0 && ColorAt(colors[..], n) == s.1
      ensures forall j :: 0 <= j < Count && j != n ==> ColorAt(colors[..], j) == ColorAt(old(colors[..]), j)
    {
      ghost var cs := colors[..];
      ghost var s := Step(CurrentFlags(), ColorAt(cs, n), st, rand);
      var i := 3 * n;
      var r, g, b := colors[i], colors[i + 1], colors[i + 2];
      var randNum := rand * StepScale;
      r := Nudge(r, rState, st.lowerMaxFr * randNum);
      g := Nudge(g, gState, st.upperMaxFr * randNum);
      b := Nudge(b, bState, st.lowerAvgFr * randNum);
      rState := Gate(rState, r, RMin, RMax);
      gState := Gate(gState, g, GMin, GMax);
      bState := Gate(bState, b, BMin, BMax);
      assert CurrentFlags() == s.0 && Rgb(r, g, b) == s.1;
      colors[i] := r;
      colors[i + 1] := g;
      colors[i + 2] := b;
    }

    /**
     * The colour loop of a playing tick: one step per particle, in order,
     * each with the next random draw, the shared flags carried from one
     * particle to the next.
     */
    method DriftColors(st: BandStats, rands: seq<real>)
      requires Valid() && |rands| == Count
      modifies this`rState, this`gState, this`bState, colors
      ensures Valid()
      ensures CurrentFlags() == FlagsAfter(old(CurrentFlags()), old(colors[..]), st, rands, Count)
      ensures forall j :: 0 <= j < Count ==> ColorAt(colors[..], j) == Drifted(old(CurrentFlags()), old(colors[..]), st, rands, j)
    {
      ghost var flags0, cs := CurrentFlags(), colors[..];
      var i, n := 0, 0;
      while i < BufferLength
        invariant 0 <= n <= Count && i == 3 * n
        invariant CurrentFlags() == FlagsAfter(flags0, cs, st, rands, n)
        invariant forall j :: 0 <= j < n ==> ColorAt(colors[..], j) == Drifted(flags0, cs, st, rands, j)
        invariant forall j :: n <= j < Count ==> ColorAt(colors[..], j) == ColorAt(cs, j)
      {
        assert ColorAt(colors[..], n) == ColorAt(cs, n);
        StepParticle(n, st, rands[n]);
        assert CurrentFlags() == FlagsAfter(flags0, cs, st, rands, n + 1);
        assert ColorAt(colors[..], n) == Drifted(flags0, cs, st, rands, n);
        i, n := i + 3, n + 1;
      }
    }

    /** The first position loop of a playing tick, bounded by `Count` rather than `3 * Count`. */
    method WaveHeights(sin: real -> real)
      requires Valid()
      modifies positions
      ensures Valid()
      ensures positions[..] == Heights(old(positions[..]), lowerSum, sin)
    {
      ghost var p := positions[..];
      var i := 0;
      while i < Count
        invariant 0 <= i <= Count + 2 && i % 3 == 0
        invariant forall j :: 0 <= j < BufferLength ==> positions[j] == if j <= i then Heights(p, lowerSum, sin)[j] else p[j]
      {
        var x := positions[i];
        positions[i + 1] := sin(lowerSum + x);
        i := i + 3;
      }
    }

    /** The second position loop of a playing tick: scalar by scalar over the trailing third. */
    method WaveTail(sin: real -> real, jitter: seq<real>)
      requires Valid() && |jitter| == Count
      modifies positions
      ensures Valid()
      ensures positions[..] == Tail(old(positions[..]), sin, jitter)
    {
      ghost var p := positions[..];
      var i := 2 * Count;
      while i < 3 * Count
        invariant 2 * Count <= i <= 3 * Count
        invariant forall j :: 0 <= j < i ==> positions[j] == Tail(p, sin, jitter)[j]
        invariant forall j :: i <= j < BufferLength ==> positions[j] == p[j]
      {
        var x := positions[i];
        positions[i] := sin(x + Jitter(jitter[i - 2 * Count])) * 5.0;
        i := i + 1;
      }
    }

    /** The paused path: the field stops turning and every `y` settles one step toward zero. */
    method Idle()
      requires Valid()
      modifies this`fieldRotation, positions
      ensures Valid()
      ensures fieldRotation == Vec3(0.0, 0.0, 0.0)
      ensures positions[..] == Settled(old(positions[..]))
    {
      fieldRotation := Vec3(0.0, 0.0, 0.0);
      Settle();
    }

    /**
     * The rest of the playing path: the sums grow by the band means, both
     * position loops run with the new lower sum as phase, and the field and
     * the sphere turn.
     */
    method Advance(st: BandStats, jitter: seq<real>, sin: real -> real)
      requires Valid() && |jitter| == Count
      requires 0.0 <= st.lowerAvgFr && 0.0 <= st.upperAvgFr
      modifies this`lowerSum, this`upperSum, this`fieldRotation, this`sphereRotationY, positions
      ensures Valid()
      ensures lowerSum == old(lowerSum) + st.lowerAvgFr / SumDivisor
      ensures upperSum == old(upperSum) + st.upperAvgFr / SumDivisor
      ensures positions[..] == Wave(old(positions[..]), lowerSum, sin, jitter)
      ensures fieldRotation == FieldRotation(lowerSum)
      ensures sphereRotationY == old(sphereRotationY) + st.lowerAvgFr / SpinDivisor
    {
      lowerSum := lowerSum + st.lowerAvgFr / SumDivisor;
      upperSum := upperSum + st.upperAvgFr / SumDivisor;
      WaveHeights(sin);
      WaveTail(sin, jitter);
      fieldRotation := FieldRotation(lowerSum);
      sphereRotationY := sphereRotationY + st.lowerAvgFr / SpinDivisor;
    }

    /** The playing path: the colours drift, then the field moves. */
    method Play(st: BandStats, colorRands: seq<real>, jitter: seq<real>, sin: real -> real)
      requires Valid() && |colorRands| == Count && |jitter| == Count
      requires 0.0 <= st.lowerAvgFr && 0.0 <= st.upperAvgFr
      modifies this`rState, this`gState, this`bState, this`lowerSum, this`upperSum
      modifies this`fieldRotation, this`sphereRotationY, positions, colors
      ensures Valid()
      ensures CurrentFlags() == FlagsAfter(old(CurrentFlags()), old(colors[..]), st, colorRands, Count)
      ensures forall j :: 0 <= j < Count ==> ColorAt(colors[..], j) == Drifted(old(CurrentFlags()), old(colors[..]), st, colorRands, j)
      ensures lowerSum == old(lowerSum) + st.lowerAvgFr / SumDivisor
      ensures upperSum == old(upperSum) + st.upperAvgFr / SumDivisor
      ensures positions[..] == Wave(old(positions[..]), lowerSum, sin, jitter)
      ensures fieldRotation == FieldRotation(lowerSum)
      ensures sphereRotationY == old(sphereRotationY) + st.lowerAvgFr / SpinDivisor
    {
      DriftColors(st, colorRands);
      Advance(st, jitter, sin);
    }

    /**
     * One animation frame. The band statistics are computed from the frame
     * on every tick; a paused tick runs the idle path, a playing tick the
     * playing path, and the sphere's scale is recomputed either way.
     */
    method Tick(frame: seq<Byte>, colorRands: seq<real>, jitter: seq<real>, sin: real -> real)
      requires Valid() && |frame| == BinCount
      requires |colorRands| == Count && |jitter| == Count
      modifies this, positions, colors
      ensures Valid()
      ensures paused == old(paused) && drag == old(drag)
      ensures lowerSum >= old(lowerSum) && upperSum >= old(upperSum) && sphereRotationY >= old(sphereRotationY)
      ensures var st := Summarize(frame).value;
        && sphereScale == Vec3(SphereScale(st), SphereScale(st), SphereScale(st))
        && (paused ==>
             && positions[..] == Settled(old(positions[..]))
             && colors[..] == old(colors[..]) && CurrentFlags() == old(CurrentFlags())
             && lowerSum == old(lowerSum) && upperSum == old(upperSum)
             && fieldRotation == Vec3(0.0, 0.0, 0.0) && sphereRotationY == old(sphereRotationY))
        && (!paused ==>
             && CurrentFlags() == FlagsAfter(old(CurrentFlags()), old(colors[..]), st, colorRands, Count)
             && (forall j :: 0 <= j < Count ==> ColorAt(colors[..], j) == Drifted(old(CurrentFlags()), old(colors[..]), st, colorRands, j))
             && lowerSum == old(lowerSum) + st.lowerAvgFr / SumDivisor
             && upperSum == old(upperSum) + st.upperAvgFr / SumDivisor
             && positions[..] == Wave(old(positions[..]), lowerSum, sin, jitter)
             && fieldRotation == FieldRotation(lowerSum)
             && sphereRotationY == old(sphereRotationY) + st.lowerAvgFr / SpinDivisor)
    {
      var st := Summarize(frame).value;
      if paused {
        Idle();
      }
      if !paused {
        Play(st, colorRands, jitter, sin);
      }
      var s := SphereScale(st);
      sphereScale := Vec3(s, s, s);
    }

    /** `mousedown`: a new press starts without movement. */
    method MouseDown()
      requires Valid()
      modifies this`drag
      ensures Valid() && !drag
    {
      drag := false;
    }

    /** `mousemove`: the pointer moved since the press. */
    method MouseMove()
      requires Valid()
      modifies this`drag
      ensures Valid() && drag
    {
      drag := true;
    }

    /**
     * `mouseup`: after a drag nothing happens; after a plain click a
     * paused track resumes with the middle third of the positions placed
     * anew, and a playing track pauses.
     */
    method MouseUp(rands: seq<real>)
      requires Valid() && |rands| == Count && Uniform(rands)
      modifies this`paused, positions
      ensures Valid()
      ensures paused == (if drag then old(paused) else !old(paused))
      ensures positions[..] == (if !drag && old(paused) then Reseeded(old(positions[..]), rands) else old(positions[..]))
    {
      if drag {
        return;
      }
      if paused {
        ghost var p := positions[..];
        var i := Count;
        while i < 2 * Count
          invariant Count <= i <= 2 * Count
          invariant forall j :: 0 <= j < BufferLength ==> positions[j] == if Count <= j < i then Spread(rands[j - Count]) else p[j]
        {
          positions[i] := Spread(rands[i - Count]);
          i := i + 1;
        }
        paused := false;
      } else {
        paused := true;
      }
    }
  }

  /**
   * A press and release without movement toggles playback; a resume also
   * places the middle third of the positions anew.
   */
  method Click(v: Visualizer, rands: seq<real>)
    requires v.Valid() && |rands| == Count && Uniform(rands)
    modifies v`drag, v`paused, v.positions
    ensures v.Valid() && v.paused == !old(v.paused) && !v.drag
    ensures v.positions[..] == if old(v.paused) then Reseeded(old(v.positions[..]), rands) else old(v.positions[..])
  {
    v.MouseDown();
    v.MouseUp(rands);
  }

  /** A press, a move and a release leave playback and positions as they were. */
  method Drag(v: Visualizer, rands: seq<real>)
    requires v.Valid() && |rands| == Count && Uniform(rands)
    modifies v`drag, v`paused, v.positions
    ensures v.Valid() && v.paused == old(v.paused) && v.positions[..] == old(v.positions[..]) && v.drag
  {
    v.MouseDown();
    v.MouseMove();
    v.MouseUp(rands);
  }
}
