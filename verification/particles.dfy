/**
 * The particle field of the Seeun visualiser: `Count` particles stored as
 * flat, interleaved `x, y, z` (and `r, g, b`) buffers of length `3 * Count`,
 * and the random placement used when the field is created and when
 * playback resumes.
 */
module Particles {

  /** Number of particles in the field. */
  const Count: nat := 250

  /** Length of each flat buffer. */
  const BufferLength: nat := 3 * Count

  /** A three-component vector: a rotation or a scale of a scene object. */
  datatype Vec3 = Vec3(x: real, y: real, z: real)

  /** Values drawn from `Math.random()`: each in `[0, 1)`. */
  predicate Uniform(rs: seq<real>)
  {
    forall i :: 0 <= i < |rs| ==> 0.0 <= rs[i] < 1.0
  }

  /** `(Math.random() - 0.5) * 10`: a coordinate in `[-5, 5)`. */
  function Spread(rand: real): (c: real)
    requires 0.0 <= rand < 1.0
    ensures -5.0 <= c < 5.0
  {
    (rand - 0.5) * 10.0
  }

  /** The position buffer as created: every coordinate placed at random. */
  function InitialPositions(rands: seq<real>): (p: seq<real>)
    requires |rands| == BufferLength && Uniform(rands)
    ensures |p| == BufferLength
    ensures forall i :: 0 <= i < |p| ==> -5.0 <= p[i] < 5.0
  {
    seq(BufferLength, i requires 0 <= i < BufferLength => Spread(rands[i]))
  }

  /** Distinct draws place a coordinate at distinct positions. */
  lemma SpreadInjective(r1: real, r2: real)
    requires 0.0 <= r1 < 1.0 && 0.0 <= r2 < 1.0
    ensures Spread(r1) == Spread(r2) ==> r1 == r2
  {
  }

  /** Every position in `[-5, 5)` is reached by some draw in `[0, 1)`. */
  lemma SpreadOnto(c: real)
    requires -5.0 <= c < 5.0
    ensures 0.0 <= c / 10.0 + 0.5 < 1.0 && Spread(c / 10.0 + 0.5) == c
  {
  }
}
