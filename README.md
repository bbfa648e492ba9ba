# Boids flocking, modelled in Dafny

This project models the flocking core of the `boids` crate (`boids/src/lib.rs`),
a Bevy app that simulates a flock of boids. Each frame, two systems act on the
flock:

- `emergent_system` first takes two sums over the flock: the sum of all
  positions, together with a count that starts at -1, and the sum of all
  velocities. Then, boid by boid, it adds three steering terms:
  - coherence: toward the centre of the other boids;
  - avoidance: away from every other boid within `PERSONAL_SPACE`;
  - alignment: toward the mean velocity of the other boids.

  The weighted sum of the terms is added to the boid's velocity in place, and
  the velocity is then clamped to `MAX_SPEED`.
- `move_system` moves each boid by its velocity.

At startup, `setup` spawns one boid on every point of a cubic grid, plus two
more near the origin, each with a random velocity clamped to `MAX_SPEED`.

The model is split into four modules:

- `Vectors` (`vectors.dfy`): glam's `Vec3` over the reals, and glam's
  `clamp_length_max`.
- `Flocking` (`flocking.dfy`): the flocking rule as functions over one snapshot
  of the flock. `Aggregates` models the two folds. `NextVelocities` is the
  velocity update every boid receives from the pre-tick snapshot. `Advance` is
  the integration step. The lemmas state what these mean.
- `Placement` (`placement.dfy`): the spawn grid. It covers Rust's `step_by`
  range and the three nested loops.
- `Boids` (`boids.dfy`): the class `Flock`. Its arrays `pos` and `vel` hold the
  boids' translations and velocities, indexed by boid. Three members model the
  source's functions:
  - `EmergentSystem`: the in-place loop of `emergent_system`.
  - `MoveSystem`: the in-place loop of `move_system`.
  - the constructor `Setup`: the spawning in `setup`.

The central property is that of `EmergentSystem`. It writes the velocities in
place, one boid after another, yet its result equals `NextVelocities` applied
to the pre-tick positions and velocities. Three facts make that so:

- the sums are taken before the loop;
- positions are never written;
- each boid reads its own velocity before its only writes.

A tick can also be written as a read phase over a snapshot followed by a
write phase. The code writes in place instead. `EmergentSystem`'s
postcondition proves the two give the same velocities.

## Model

| member | source | states |
|---|---|---|
| Vectors.LengthWithin | boids/src/lib.rs:66-67 | A length is at most a bound exactly when the squared length is at most the squared bound. So the source's `length() <= PERSONAL_SPACE` test is the squared-length test `Crowds`. |
| Vectors.ClampScale | boids/src/lib.rs:82 | glam's rescaling factor for an over-long vector lies in [0, 1). It brings the squared length to exactly `max * max`. |
| Vectors.ClampLengthMax | boids/src/lib.rs:82 | After `clamp_length_max`, the squared length is at most `max * max`. A vector already within the bound is returned unchanged. A longer vector is shrunk along its own direction to length exactly `max`. |
| Flocking.CenterFoldSumsAndCounts | boids/src/lib.rs:39-44 | The position fold, from any start, returns the start's sum plus the sum of the positions, and the start's count plus the number of boids. |
| Flocking.VelocityFoldSums | boids/src/lib.rs:46-50 | The velocity fold, from any start, returns the start plus the sum of the velocities. |
| Flocking.Aggregates | boids/src/lib.rs:39-50 | `center_sum` is the sum of all positions and `velocity_sum` the sum of all velocities. `num_other_boids` is the number of boids minus one. |
| Flocking.SumWithout | boids/src/lib.rs:58 | The total of all boids is one boid's value plus the total of the others. |
| Flocking.TowardOthersMean | boids/src/lib.rs:57-59 | Self-exclusion. `(sum - mine) / num_other_boids - mine` is the offset of a boid's own value from the mean over the other boids only. |
| Flocking.VelocityDeltaMeaning | boids/src/lib.rs:55-78 | The delta is the sum of three terms: 0.01 times the offset from the mean position of the others, the avoidance vector, and 0.01 times the offset from the mean velocity of the others. |
| Flocking.AvoidanceIsSum | boids/src/lib.rs:63-72 | The avoidance vector is the sum, over all boids, of each boid's contribution. A boid contributes its offset if it is another boid within personal space, and zero otherwise. |
| Flocking.AvoidanceAlone | boids/src/lib.rs:63-72 | With no other boid within personal space, the avoidance vector is zero. |
| Flocking.AvoidanceOne | boids/src/lib.rs:63-72 | No distance weighting. With exactly one other boid within personal space, the avoidance vector is the plain offset from it. |
| Flocking.AvoidanceIgnoresSelf | boids/src/lib.rs:66-67 | The boid itself never contributes. Whatever sits in its own slot, the scan gives the same vector. |
| Flocking.AvoidancePair | boids/src/lib.rs:63-72 | For two boids, each boid's avoidance vector is the other's reversed. It is the offset between them when within personal space, and zero otherwise. |
| Flocking.NextVelocities | boids/src/lib.rs:52-83 | After a tick there is one new velocity per boid, and each has squared length at most `MAX_SPEED` squared. |
| Flocking.PairDelta | boids/src/lib.rs:57-78 | For two boids, coherence is the plain displacement to the other boid scaled by 0.01. Alignment is the velocity difference scaled by 0.01. |
| Flocking.PairAtRest | boids/src/lib.rs:55-81 | Two resting boids outside each other's personal space are each steered toward the other by `0.1 * 0.01` times their displacement. Nothing else contributes. |
| Flocking.TwoBoidScenario | boids/src/lib.rs:52-83 | Two resting boids three units apart on the x axis, as at (0,0,0) and (3,0,0), leave the tick with velocities (0.003,0,0) and (-0.003,0,0). |
| Flocking.Advance | boids/src/lib.rs:86-88 | Every boid's new position differs from its old one by exactly its velocity. |
| Placement.StepBy | boids/src/lib.rs:100 | `(start..end).step_by(step)` is empty exactly when `end <= start`. Otherwise it starts at `start`, advances by `step`, stays below `end`, and stops at the first element whose next step would reach `end`. |
| Placement.AxisValues | boids/src/lib.rs:100 | `(-10..20).step_by(4)` is -10, -6, -2, 2, 6, 10, 14, 18. |
| Placement.GridLength | boids/src/lib.rs:100-126 | The three nested loops spawn one boid per combination of coordinates. |
| Placement.GridMembers | boids/src/lib.rs:100-126 | A point is spawned by the nested loops exactly when each of its coordinates comes from its loop's range. |
| Placement.GridDistinct | boids/src/lib.rs:100-126 | When the ranges have no repeats, no point is spawned twice. |
| Placement.GridPoints | boids/src/lib.rs:100-126 | The grid has a boid on every point of {-10,-6,-2,2,6,10,14,18}³ and nowhere else. |
| Placement.InitialCount | boids/src/lib.rs:100-166 | `setup` spawns 514 boids: 512 on the grid, then one at (1,1,0) and one at (-1,-1,0). |
| Placement.InitialDistinct | boids/src/lib.rs:100-166 | No two boids spawned by `setup` share a position. |
| Boids.InitialVelocities | boids/src/lib.rs:116-122 | Every initial velocity is within `MAX_SPEED`. A draw already within the bound is kept as it is. |
| Boids.SpawnPlane | boids/src/lib.rs:101-124 | For one x, the two inner loops append the plane of boids at that x in y-then-z order. Each new boid gets its clamped draw. |
| Boids.SpawnGrid | boids/src/lib.rs:100-126 | The three loops spawn the grid in x, y, z order. Boid k gets draw k clamped. |
| Boids.Spawn | boids/src/lib.rs:100-166 | Everything `setup` spawns, in order, with clamped draws as velocities. |
| Boids.Flock.Setup | boids/src/lib.rs:93-166 | The new flock holds the initial positions in spawn order and the clamped draws as velocities. No boid exceeds `MAX_SPEED`. |
| Boids.Flock.AvoidanceVector | boids/src/lib.rs:63-72 | The avoidance loop computes the avoidance vector of the specification, testing `length() <= PERSONAL_SPACE` as the source does. |
| Boids.Flock.VelocityDeltaOf | boids/src/lib.rs:53-78 | From the aggregates and the boid's own, still pre-tick, position and velocity, the loop body computes the specified delta. |
| Boids.Flock.SteerBoid | boids/src/lib.rs:80-82 | The two in-place writes leave boid i with its specified new velocity. No other velocity changes. |
| Boids.Flock.EmergentSystem | boids/src/lib.rs:34-84 | Positions are unchanged. The velocities written in place equal `NextVelocities` of the pre-tick flock. Every velocity is within `MAX_SPEED`. |
| Boids.Flock.MoveSystem | boids/src/lib.rs:86-91 | Positions become the old positions advanced by the velocities. Velocities are unchanged. |

## Left out

- Orientation: `look_at` (boids/src/lib.rs:89) is not modelled. It is a quaternion transform computed inside glam and Bevy, and the zero-velocity case is not modelled either.
- Floating point: arithmetic is over the reals. `f32` rounding, NaN and infinities are not modelled. For example, the scenario's 0.003 is exact here.
- Square root: `length()` and `clamp_length_max` call a square root inside glam. Here it is a parameter `sqrt`, constrained by `IsSqrt` to be the non-negative square root.
- Randomness: `thread_rng` and `gen_range(-1.0..1.0)` are replaced by the parameter `draws` of `Setup`. Its elements satisfy `RandomDraw`.
- Entities: entities are array indices. All three queries of `emergent_system` and the iteration in `move_system` are taken to visit the boids in spawn order.
- Spawning: `commands.spawn_bundle` is modelled as appending to sequences. The arrays are built from them at the end of `setup`.
- Fewer than two boids: `EmergentSystem`, `NextVelocities` and their helpers require at least two boids. With one boid the source divides 0 by `num_other_boids = 0` (boids/src/lib.rs:58, 75) and has no guard. With zero boids the loop at boids/src/lib.rs:52 runs no iteration and the source does nothing; the model excludes this case as well.
- Rendering: meshes, materials, the light and the camera spawned by `setup` (boids/src/lib.rs:105-113, 168-200) are not modelled.
- App wiring: `run` (boids/src/lib.rs:22-32) is not modelled. That covers the order of the systems within a frame, `pan_orbit_camera` and `exit_on_esc_system`.
- Other crates: `origami`, `fractal` and the top-level `src` crate are not part of this model.
