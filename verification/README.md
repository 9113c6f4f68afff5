# Seeun audio visualiser: a verified model of the per-frame update

The Seeun route plays a track through a Web Audio analyser. On every
animation frame it turns the analyser's byte buffer into motion and colour
for a field of 250 particles and a companion sphere. This project models
that per-frame update in Dafny and proves what it does:

- **Band summariser** (`Bands`). The 1024-byte frame is cut into a lower
  half of 511 samples and an upper half of 512 samples; the last sample
  belongs to neither. Each half is reduced to its maximum and its mean,
  and each statistic is divided by the length of its half. The `reduce`
  calls throw on an empty half, which happens exactly for frames shorter
  than 4 samples; that case is `None`.
- **Particle field** (`Particles`). There are `Count = 250` particles,
  stored as flat interleaved `x, y, z` and `r, g, b` buffers of 750
  scalars each. The setup places every coordinate at random in `[-5, 5)`
  and gives every particle the colour `(0.392, 0.396, 0.650)`.
- **Colour drift with hysteresis** (`ColorDrift`). While the audio plays,
  each particle's three channels take one random step. The step is scaled
  by a band statistic, and its direction comes from one flag per channel.
  The three flags are shared by all particles and persist across ticks.
  After every particle each flag is gated against fixed bounds: above the
  maximum it turns descending, below the minimum it turns ascending, and
  otherwise it holds.
- **Positions** (`PositionWave`). While paused, every `y` moves 0.01
  toward zero. There is no clamp, so a `y` closer to zero than 0.01
  crosses zero and oscillates. While playing, two loops run:
  - the first writes `y = sin(lowerSum + x)` for particles 0 to 83 only,
    because it is bounded by `count` rather than `3 * count`;
  - the second folds every scalar of the trailing third through
    `5 * sin(v + jitter)`.

  Resuming playback re-places the middle third of the buffer at random.
- **Energy sums, rotations and scale** (`Pulse`). While playing,
  `lowerSum` and `upperSum` grow by the band means over 100, and the
  field turns by a tenth of `lowerSum` on every axis. The sphere spins by
  the lower mean over 500. On every tick, paused or not, the sphere's
  scale is `3 + lowerMaxFr/2 + upperMaxFr/2`.
- **The frame and the click gate** (`Seeun.Visualizer`). This class
  holds the two buffers as arrays, together with the flags, sums,
  rotations, `paused` and `drag` state. It changes them in place:
  - `Tick` runs the idle path or the playing path and then rescales the
    sphere;
  - `MouseDown`, `MouseMove` and `MouseUp` toggle playback after a click
    without movement, and do nothing after a drag.

Every method of the class is proved against the pure functions of the
other modules. The lemmas about those functions carry the properties.

Two of the code's behaviours are easy to misread; the model follows the
code in both:

- the upper half is the longer one: 512 samples against 511;
- the idle path never lands exactly on zero for a `y` with `0 < |y| < 0.01`.

## Model

| member | source | states |
|---|---|---|
| Bands.Sum | src/routes/Seeun.js:377 | the left-fold sum of bytes lies in `[0, 255 * length]` |
| Bands.Max | src/routes/Seeun.js:381-383 | on a non-empty half, the result is one of its samples and no sample exceeds it |
| Bands.SumAtMost | src/routes/Seeun.js:377 | a sum of samples each at most `m` is at most `length * m` |
| Bands.Avg | src/routes/Seeun.js:376-379 | on a non-empty half, the mean lies between 0 and the maximum |
| Bands.LowerHalf | src/routes/Seeun.js:215 | `slice(0, N/2 - 1)`; its length and position are stated by `SplitCovers` |
| Bands.UpperHalf | src/routes/Seeun.js:216 | `slice(N/2 - 1, N - 1)`; its length and position are stated by `SplitCovers` |
| Bands.SplitCovers | src/routes/Seeun.js:215-216 | the halves have `N/2 - 1` and `N - N/2` samples and are adjacent; together with the last sample they are the whole frame |
| Bands.SplitOfBinCount | src/routes/Seeun.js:215-216 | for the 1024-sample frame the halves hold 511 and 512 samples |
| Bands.HalvesNonEmpty | src/routes/Seeun.js:215-216 | both halves are non-empty if and only if the frame has at least 4 samples |
| Bands.Summarize | src/routes/Seeun.js:213-227 | statistics exist iff the frame has at least 4 samples; then each mean fraction lies in `[0, maxFr]` and each max fraction is at most `255 / len` of its half |
| Bands.HalfStats | src/routes/Seeun.js:219-227 | for a non-empty half, `0 <= avg/len <= max/len <= 255/len` |
| Bands.SumOfConstant | src/routes/Seeun.js:377 | a frame holding the constant `c` sums to `length * c` |
| Bands.ConstantStats | src/routes/Seeun.js:219-222 | on a constant half, the maximum and the mean both equal the constant |
| Particles.Spread | src/routes/Seeun.js:173 | a draw in `[0, 1)` places a coordinate in `[-5, 5)` |
| Particles.SpreadInjective | src/routes/Seeun.js:173 | distinct draws give distinct coordinates |
| Particles.SpreadOnto | src/routes/Seeun.js:173 | every coordinate in `[-5, 5)` comes from a draw in `[0, 1)`; with `SpreadInjective`, placement is a bijection from `[0, 1)` onto `[-5, 5)` |
| Particles.InitialPositions | src/routes/Seeun.js:172-174 | all 750 coordinates are set up in `[-5, 5)` |
| ColorDrift.InitialColorInBounds | src/routes/Seeun.js:175-201 | the initial colour lies strictly inside every channel's gate bounds |
| ColorDrift.GateHysteresis | src/routes/Seeun.js:278-298 | above the maximum a flag turns false, below the minimum it turns true, and between them it keeps its value |
| ColorDrift.StepMoves | src/routes/Seeun.js:253-298 | a channel moves by exactly `drive * rand * 0.002`, upwards iff its flag is set (strictly when the step is non-zero), by at most `0.002 * drive`; then its flag is gated on the new value |
| ColorDrift.WithColor | src/routes/Seeun.js:300-302 | writing a particle's colour keeps the buffer length, and reading that particle back gives the colour written |
| ColorDrift.WithColorElsewhere | src/routes/Seeun.js:300-302 | writing one particle's colour leaves every other particle's colour unchanged |
| ColorDrift.Nudge | src/routes/Seeun.js:260-276 | one channel moved up or down by `delta` as its flag says; its effect per channel is stated by `StepMoves` |
| ColorDrift.Gate | src/routes/Seeun.js:278-298 | the `> max` then `< min` flag update of one channel; its hysteresis is stated by `GateHysteresis` |
| ColorDrift.Step | src/routes/Seeun.js:254-298 | one particle's step: all three channels moved with one shared draw, then the three flags gated on the new colour; stated channel by channel by `StepMoves` |
| ColorDrift.FlagsAfter | src/routes/Seeun.js:253-303 | the flags once `k` particles have stepped, each from its original colour; shown equal to the in-order loop by `DriftPrefixClosedForm` |
| ColorDrift.Drifted | src/routes/Seeun.js:253-303 | the colour particle `j` is given, one step from its original colour under `FlagsAfter(j)`; shown equal to the in-order loop by `DriftPrefixClosedForm` |
| ColorDrift.DriftPrefix | src/routes/Seeun.js:253-303 | the loop-shaped pass over the first `k` particles keeps the buffer length |
| ColorDrift.DriftPrefixClosedForm | src/routes/Seeun.js:253-303 | after `k` particles: the flags are the fold of the gates, each earlier particle is one step from its original colour (under the flags left by the particles before it), and each later particle is untouched; so every colour is written exactly once |
| ColorDrift.FlagAfter | src/routes/Seeun.js:278-298 | the flags after a particle are the gate of the flags before it on the value that particle wrote |
| ColorDrift.DescendingHolds | src/routes/Seeun.js:278-298 | a descending flag stays descending over a run of particles that write no value below the channel's minimum |
| ColorDrift.AscendingHolds | src/routes/Seeun.js:278-298 | an ascending flag stays ascending over a run of particles that write no value above the channel's maximum |
| ColorDrift.DescendingLowers | src/routes/Seeun.js:258-276 | under a descending flag, with a positive drive and a positive draw, the particle's channel strictly decreases |
| PositionWave.SettleY | src/routes/Seeun.js:238-245 | one `y` on one paused tick; its values are stated by `SettledStep`, `SettleApproaches` and `SettleOscillates` |
| PositionWave.Settled | src/routes/Seeun.js:237-246 | one paused tick keeps the buffer length |
| PositionWave.SettledStep | src/routes/Seeun.js:237-246 | on one paused tick `x` and `z` stay; a positive `y` drops by exactly 0.01, a negative `y` rises by exactly 0.01, and a zero `y` stays zero |
| PositionWave.SettledTimes | src/routes/Seeun.js:229-248 | `n` paused ticks keep the buffer length |
| PositionWave.SettleApproaches | src/routes/Seeun.js:237-246 | a `y` at least `n` steps from zero keeps its sign and comes exactly `n * 0.01` closer in `n` ticks |
| PositionWave.SettleZero | src/routes/Seeun.js:239 | zero is a fixed point of any number of paused ticks |
| PositionWave.SettleOscillates | src/routes/Seeun.js:239-245 | a `y` with `0 < \|y\| < 0.01` never reaches zero and returns to its value after every even number of ticks |
| PositionWave.SettledTimesAt | src/routes/Seeun.js:237-246 | after `n` paused ticks each `y` has settled `n` times and every `x`, `z` is unchanged |
| PositionWave.SettledFixedPoint | src/routes/Seeun.js:237-246 | a paused tick leaves the buffer unchanged iff every `y` is zero |
| PositionWave.Heights | src/routes/Seeun.js:310-313 | the first playing loop keeps the buffer length |
| PositionWave.Tail | src/routes/Seeun.js:315-319 | the second playing loop keeps the buffer length |
| PositionWave.Jitter | src/routes/Seeun.js:319 | the jitter added to a sine's argument; `JitterSmall` bounds it |
| PositionWave.JitterSmall | src/routes/Seeun.js:319 | a draw in `[0, 1)` moves the sine's argument by less than `0.00005` either way |
| PositionWave.Wave | src/routes/Seeun.js:310-320 | both playing loops in source order; what they write is stated by `WaveWrites` |
| PositionWave.WaveWrites | src/routes/Seeun.js:310-320 | the loops write `y = sin(phase + x)` in `[-1, 1]` at indices 1, 4, …, 250 and `5 * sin(v + jitter)` in `[-5, 5]` at every index of `[500, 750)`; no other index changes |
| PositionWave.HeightsReach | src/routes/Seeun.js:310 | the first loop's last write is index 250, and index 253 is not written |
| PositionWave.Reseeded | src/routes/Seeun.js:353-355 | resuming places indices `[250, 500)` in `[-5, 5)` and leaves every other index unchanged |
| Pulse.Accumulate | src/routes/Seeun.js:308-309 | a sum after a run of playing ticks; `AccumulateMonotone` and `AccumulateConstant` state its growth |
| Pulse.AccumulateMonotone | src/routes/Seeun.js:308-309 | with non-negative band means the sums never decrease, tick after tick |
| Pulse.AccumulateConstant | src/routes/Seeun.js:308-309 | a mean held at `c` for `n` playing ticks adds exactly `n * c / divisor` |
| Pulse.ThousandTicks | src/routes/Seeun.js:308 | over reals, means of 1 held for 1000 playing ticks bring a sum from 0 to exactly 10 (a statement about the formula: delivered frames have means below 0.5) |
| Pulse.FieldRotation | src/routes/Seeun.js:324-326 | all three axes are equal, and for a non-negative sum they lie between 0 and the sum |
| Pulse.SphereScale | src/routes/Seeun.js:331 | the sphere's scale from the band maxima; `SphereScaleBounds` bounds it |
| Pulse.SphereScaleBounds | src/routes/Seeun.js:331 | the scale is at least 3 and at most `3 + 255/(2 lowerLen) + 255/(2 upperLen)` |
| Pulse.SphereScaleOfBinCount | src/routes/Seeun.js:331 | for the 1024-sample frame the scale lies in `[3, 3 + 255/1022 + 255/1024]` |
| Pulse.SphereScaleExample | src/routes/Seeun.js:331 | band maxima of 0.4 and 0.6 give a scale of 3.5 |
| Seeun.Visualizer.constructor | src/routes/Seeun.js:167-204 | the set-up state: positions are `InitialPositions` of the draws, every particle has the initial colour, the flags are descending, the sums and rotations are zero, and the audio is paused |
| Seeun.Visualizer.Settle | src/routes/Seeun.js:236-247 | the position buffer becomes `Settled` of the old one |
| Seeun.Visualizer.StepParticle | src/routes/Seeun.js:254-302 | particle `n` gets the colour `Step` computes from its old colour, the flags become `Step`'s gated flags, and every other particle's colour is unchanged |
| Seeun.Visualizer.DriftColors | src/routes/Seeun.js:253-303 | the flags become `FlagsAfter(250)` and every particle holds its `Drifted` colour, computed from the old buffer and flags |
| Seeun.Visualizer.WaveHeights | src/routes/Seeun.js:310-313 | the position buffer becomes `Heights` of the old one, with the current lower sum as phase |
| Seeun.Visualizer.WaveTail | src/routes/Seeun.js:315-319 | the position buffer becomes `Tail` of the old one with the given jitter draws |
| Seeun.Visualizer.Idle | src/routes/Seeun.js:229-249 | the field's rotation becomes zero and the positions settle one step |
| Seeun.Visualizer.Advance | src/routes/Seeun.js:308-328 | the sums grow by the means over 100, the positions become `Wave` with the new lower sum, the field's rotation follows the lower sum, and the sphere spins by the lower mean over 500 |
| Seeun.Visualizer.Play | src/routes/Seeun.js:251-329 | the colour drift followed by `Advance`, with the class invariant kept |
| Seeun.Visualizer.Tick | src/routes/Seeun.js:208-331 | a paused tick settles the positions and zeroes the rotation, leaving colours, flags, sums and spin unchanged; a playing tick drifts the colours and moves the field as `Play` states; either way the scale is recomputed, the sums and spin never decrease, and `paused`/`drag` are unchanged |
| Seeun.Visualizer.MouseDown | src/routes/Seeun.js:346 | a press clears `drag` |
| Seeun.Visualizer.MouseMove | src/routes/Seeun.js:347 | a move sets `drag` |
| Seeun.Visualizer.MouseUp | src/routes/Seeun.js:348-369 | after a drag nothing changes; otherwise `paused` flips, and a resume reseeds the middle third of the positions |
| Seeun.Click | src/routes/Seeun.js:346-369 | a press and release without movement toggles playback, reseeds the middle third of the positions on a resume and leaves them alone on a pause, and ends with `drag` clear; nothing but `drag`, `paused` and the positions changes |
| Seeun.Drag | src/routes/Seeun.js:346-369 | a press, a move and a release leave playback and positions unchanged and end with `drag` set; nothing but `drag`, `paused` and the positions may change |

## Left out

- Float32 storage: buffer values are reals. The rounding to 32-bit floats on every store is not modelled.
- All arithmetic is over exact reals, including the double-precision scalars of the tick: `avg`, the four fractions, `lowerSum`/`upperSum`, the rotations and the scale. Double rounding is not modelled, so equalities such as `Pulse.ThousandTicks` hold of the formulas, not of the doubles the browser computes.
- `Math.sin` is the parameter `sin`. Only its range `[-1, 1]` is known, and only the bound lemmas rely on it.
- `Math.random` is replaced by draws passed in as sequences in `[0, 1)`: the setup draws, the colour draws, the tail jitter and the reseed draws.
- The clock, `delataTime` and `world.step` feed only the physics engine, which is not part of this model.
- `overallAvg` (line 218) is computed and never used.
- The `needsUpdate` flags, `requestAnimationFrame` and rendering have no effect on the modelled state.
- The camera reset on pausing (lines 360-366) is not modelled. `audio.play()`, `audio.pause()` and `context.resume()` are modelled only as the `paused` flag flipping at once.
- `paused` changes only through `MouseUp` in this model. The media element also sets `audio.paused` by itself, when the track ends or `play()` is rejected; that is not modelled.
- The scene, materials, textures, analyser creation, the audio-context reuse, the listener registration, resize handling and cleanup are browser and library plumbing. They are not modelled.
- `Seeun.Visualizer.Tick` requires a 1024-byte frame, because the analyser always fills a buffer of that length. Shorter frames are modelled only by `Bands.Summarize`.
- The `if (particlesGeometry.attributes.position.array)` guard (line 236) always holds, so the idle loop runs unconditionally.
- src/routes/Home.js, the building and camera factories and the React shell components are not part of this model.
