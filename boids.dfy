/**
  The three systems of boids/src/lib.rs that act on the flock, over a `Flock`
  that keeps every boid's `Transform` translation in `pos` and its `Velocity`
  in `vel`, indexed by boid (the index stands for the ECS entity):
  `EmergentSystem` steers every velocity in place, `MoveSystem` advances every
  position in place, and the constructor `Setup` spawns the initial flock.
*/
module Boids {
  import opened Vectors
  import opened Flocking
  import opened Placement

  /** A velocity component triple as `rng.gen_range(-1.0..1.0)` draws it. */
  predicate RandomDraw(d: Vec3) {
    -1.0 <= d.x < 1.0 && -1.0 <= d.y < 1.0 && -1.0 <= d.z < 1.0
  }

  /** The velocities `setup` gives the boids: each draw clamped to MAX_SPEED. */
  function InitialVelocities(draws: seq<Vec3>, sqrt: real -> real): (r: seq<Vec3>)
    requires IsSqrt(sqrt)
    ensures |r| == |draws|
    ensures forall k :: 0 <= k < |r| ==> LengthSq(r[k]) <= MAX_SPEED * MAX_SPEED
    ensures forall k :: 0 <= k < |r| && LengthSq(draws[k]) <= MAX_SPEED * MAX_SPEED ==> r[k] == draws[k]
  {
    seq(|draws|, k requires 0 <= k < |draws| => ClampLengthMax(draws[k], MAX_SPEED, sqrt))
  }

  lemma InitialVelocitiesGrow(draws: seq<Vec3>, n: int, sqrt: real -> real)
    requires 0 <= n < |draws| && IsSqrt(sqrt)
    ensures InitialVelocities(draws[..n + 1], sqrt)
         == InitialVelocities(draws[..n], sqrt) + [ClampLengthMax(draws[n], MAX_SPEED, sqrt)]
  {
    assert draws[..n + 1] == draws[..n] + [draws[n]];
  }

  /**
    The two inner loops of `setup` for one `x`: after the boids `ps0` already
    spawned, one boid per `(y, z)` of the grid, z innermost; boid `k` gets
    velocity `draws[k]` clamped to MAX_SPEED.
  */
  method SpawnPlane(x: int, axis: seq<int>, ps0: seq<Vec3>, vs0: seq<Vec3>, draws: seq<Vec3>, sqrt: real -> real)
    returns (ps: seq<Vec3>, vs: seq<Vec3>)
    requires |axis| == 8 && |ps0| + 64 <= |draws| && IsSqrt(sqrt)
    requires vs0 == InitialVelocities(draws[..|ps0|], sqrt)
    ensures ps == ps0 + Plane(x, axis, axis)
    ensures |ps| == |ps0| + 64
    ensures vs == InitialVelocities(draws[..|ps|], sqrt)
  {
    ps, vs := ps0, vs0;
    for b := 0 to |axis|
      invariant ps == ps0 + Plane(x, axis[..b], axis)
      invariant |ps| == |ps0| + 8 * b
      invariant vs == InitialVelocities(draws[..|ps|], sqrt)
    {
      for c := 0 to |axis|
        invariant ps == ps0 + Plane(x, axis[..b], axis) + Row(x, axis[b], axis[..c])
        invariant |ps| == |ps0| + 8 * b + c
        invariant vs == InitialVelocities(draws[..|ps|], sqrt)
      {
        RowGrows(x, axis[b], axis, c);
        InitialVelocitiesGrow(draws, |ps|, sqrt);
        ps := ps + [Vec3(x as real, axis[b] as real, axis[c] as real)];
        vs := vs + [ClampLengthMax(draws[|vs|], MAX_SPEED, sqrt)];
      }
      assert axis[..|axis|] == axis;
      assert axis[..b + 1][..b] == axis[..b];
    }
    assert axis[..|axis|] == axis;
  }

  /**
    The three nested loops of `setup`: one boid per grid point, x outermost
    and z innermost, boid `k` with velocity `draws[k]` clamped to MAX_SPEED.
  */
  method SpawnGrid(axis: seq<int>, draws: seq<Vec3>, sqrt: real -> real) returns (ps: seq<Vec3>, vs: seq<Vec3>)
    requires |axis| == 8 && 512 <= |draws| && IsSqrt(sqrt)
    ensures ps == Grid(axis, axis, axis)
    ensures |ps| == 512
    ensures vs == InitialVelocities(draws[..512], sqrt)
  {
    ps, vs := [], [];
    for a := 0 to |axis|
      invariant ps == Grid(axis[..a], axis, axis)
      invariant |ps| == 64 * a
      invariant vs == InitialVelocities(draws[..|ps|], sqrt)
    {
      ps, vs := SpawnPlane(axis[a], axis, ps, vs, draws, sqrt);
      assert axis[..a + 1][..a] == axis[..a];
    }
    assert axis[..|axis|] == axis;
  }

  /**
    Everything `setup` spawns, in order: the grid, then a boid at (1,1,0) and
    one at (-1,-1,0), boid `k` with velocity `draws[k]` clamped to MAX_SPEED.
  */
  method Spawn(draws: seq<Vec3>, sqrt: real -> real) returns (ps: seq<Vec3>, vs: seq<Vec3>)
    requires |draws| == 514 && IsSqrt(sqrt)
    ensures ps == InitialPositions()
    ensures vs == InitialVelocities(draws, sqrt)
  {
    var axis := Axis();
    AxisShape();
    ps, vs := SpawnGrid(axis, draws, sqrt);
    InitialVelocitiesGrow(draws, 512, sqrt);
    ps := ps + [Vec3(1.0, 1.0, 0.0)];
    vs := vs + [ClampLengthMax(draws[|vs|], MAX_SPEED, sqrt)];
    InitialVelocitiesGrow(draws, 513, sqrt);
    ps := ps + [Vec3(-1.0, -1.0, 0.0)];
    vs := vs + [ClampLengthMax(draws[|vs|], MAX_SPEED, sqrt)];
    assert draws[..514] == draws;
  }

  class Flock {
    var pos: array<Vec3>
    var vel: array<Vec3>

    /** One position and one velocity per boid, in two separate arrays. */
    ghost predicate Valid()
      reads this
    {
      pos != vel && pos.Length == vel.Length
    }

    /** No boid moves faster than MAX_SPEED. */
    predicate SpeedBounded()
      reads this, vel
    {
      forall k :: 0 <= k < vel.Length ==> LengthSq(vel[k]) <= MAX_SPEED * MAX_SPEED
    }

    /**
      `setup`: spawns a boid on every point of the grid, x outermost and z
      innermost, then one at (1,1,0) and one at (-1,-1,0). Boid `k` takes the
      random draw `draws[k]`, clamped to MAX_SPEED, as its velocity.
    */
    constructor Setup(draws: seq<Vec3>, sqrt: real -> real)
      requires |draws| == 514 && IsSqrt(sqrt)
      requires forall k :: 0 <= k < |draws| ==> RandomDraw(draws[k])
      ensures Valid() && fresh(pos) && fresh(vel)
      ensures pos[..] == InitialPositions()
      ensures vel[..] == InitialVelocities(draws, sqrt)
      ensures SpeedBounded()
    {
      var ps, vs := Spawn(draws, sqrt);
      InitialCount();
      var positions := new Vec3[|ps|](k requires 0 <= k < |ps| => ps[k]);
      var velocities := new Vec3[|vs|](k requires 0 <= k < |vs| => vs[k]);
      assert positions[..] == ps && velocities[..] == vs;
      pos, vel := positions, velocities;
    }

    /**
      The avoidance scan of `emergent_system` for boid `i` at `myPosition`:
      over every boid, the offset from it is added when the boid is not `i`
      and the offset's length is at most PERSONAL_SPACE.
    */
    method AvoidanceVector(i: int, myPosition: Vec3, sqrt: real -> real) returns (avoidance: Vec3)
      requires 0 <= i < pos.Length && IsSqrt(sqrt)
      ensures avoidance == AvoidanceUpTo(pos[..], i, myPosition, pos.Length)
    {
      avoidance := Zero;
      var j := 0;
      while j < pos.Length
        invariant 0 <= j <= pos.Length
        invariant avoidance == AvoidanceUpTo(pos[..], i, myPosition, j)
      {
        var oppositeDirection := Sub(myPosition, pos[j]);
        if j != i {
          LengthSqNonNegative(oppositeDirection);
          LengthWithin(LengthSq(oppositeDirection), PERSONAL_SPACE, sqrt);
          if Length(oppositeDirection, sqrt) <= PERSONAL_SPACE {
            avoidance := Add(avoidance, oppositeDirection);
          }
        }
        j := j + 1;
      }
    }

    /**
      The steering delta of `emergent_system` for boid `i`, from the sums and
      count of the aggregate pass over the pre-tick flock `ps`, `vs`: boid `i`
      reads its position and its own velocity, which are still the pre-tick
      ones, and the delta is the one `VelocityDelta` specifies.
    */
    method VelocityDeltaOf(i: int, aggregate: Aggregate, ghost ps: seq<Vec3>, ghost vs: seq<Vec3>,
                           sqrt: real -> real) returns (velocityDelta: Vec3)
      requires |ps| == |vs| && 2 <= |ps| && 0 <= i < |ps| && IsSqrt(sqrt)
      requires aggregate == Aggregates(ps, vs)
      requires pos[..] == ps && i < vel.Length && vel[i] == vs[i]
      ensures velocityDelta == VelocityDelta(ps, vs, i)
    {
      var myPosition := pos[i];
      var myVelocity := vel[i];
      velocityDelta := Zero;

      var otherCenter := Div(Sub(aggregate.centerSum, myPosition), aggregate.numOtherBoids as real);
      var toCenter := Sub(otherCenter, myPosition);
      velocityDelta := Add(velocityDelta, Scale(toCenter, COHERENCE));
      AddZero(Scale(toCenter, COHERENCE));

      var avoidanceVector := AvoidanceVector(i, myPosition, sqrt);
      velocityDelta := Add(velocityDelta, avoidanceVector);

      var otherVelocities := Div(Sub(aggregate.velocitySum, myVelocity), aggregate.numOtherBoids as real);
      var toOtherVelocities := Sub(otherVelocities, myVelocity);
      velocityDelta := Add(velocityDelta, Scale(toOtherVelocities, VELOCITY_FACTOR));
      assert myPosition == ps[i] && myVelocity == vs[i];
    }

    /**
      One pass of the loop of `emergent_system`: boid `i`'s delta is added,
      weighted, to its velocity in place, and the velocity is then clamped to
      MAX_SPEED in place; no other velocity is touched.
    */
    method SteerBoid(i: int, aggregate: Aggregate, ghost ps: seq<Vec3>, ghost vs: seq<Vec3>, sqrt: real -> real)
      requires Valid() && |ps| == |vs| && 2 <= |ps| && 0 <= i < |ps| && IsSqrt(sqrt)
      requires aggregate == Aggregates(ps, vs)
      requires pos[..] == ps && vel.Length == |vs| && vel[i] == vs[i]
      modifies vel
      ensures vel[i] == NewVelocity(ps, vs, i, sqrt)
      ensures forall k :: 0 <= k < vel.Length && k != i ==> vel[k] == old(vel[k])
    {
      var velocityDelta := VelocityDeltaOf(i, aggregate, ps, vs, sqrt);
      vel[i] := Add(vel[i], Scale(velocityDelta, DELTA_WEIGHT));
      vel[i] := ClampLengthMax(vel[i], MAX_SPEED, sqrt);
    }

    /**
      `emergent_system`: every boid's velocity is steered by coherence,
      avoidance and alignment and clamped to MAX_SPEED, in place, one boid
      after another. Because the sums are taken first, positions are never
      written and each boid reads its own velocity before its only write, the
      result is the simultaneous update `NextVelocities` of the pre-tick flock.
    */
    method EmergentSystem(sqrt: real -> real)
      requires Valid() && 2 <= pos.Length && IsSqrt(sqrt)
      modifies vel
      ensures Valid()
      ensures pos[..] == old(pos[..])
      ensures vel[..] == NextVelocities(old(pos[..]), old(vel[..]), sqrt)
      ensures SpeedBounded()
    {
      ghost var ps, vs := pos[..], vel[..];
      var aggregate := Aggregates(pos[..], vel[..]);
      var i := 0;
      while i < vel.Length
        invariant 0 <= i <= vel.Length
        invariant pos[..] == ps
        invariant forall k :: 0 <= k < i ==> vel[k] == NewVelocity(ps, vs, k, sqrt)
        invariant forall k :: i <= k < vel.Length ==> vel[k] == vs[k]
      {
        SteerBoid(i, aggregate, ps, vs, sqrt);
        i := i + 1;
      }
      assert vel[..] == NextVelocities(ps, vs, sqrt);
    }

    /**
      `move_system`: every boid's position is advanced by its velocity, in
      place; velocities are left as they are.
    */
    method MoveSystem()
      requires Valid()
      modifies pos
      ensures Valid()
      ensures pos[..] == Advance(old(pos[..]), vel[..])
      ensures vel[..] == old(vel[..])
    {
      ghost var ps := pos[..];
      var i := 0;
      while i < pos.Length
        invariant 0 <= i <= pos.Length
        invariant forall k :: 0 <= k < i ==> pos[k] == Add(ps[k], vel[k])
        invariant forall k :: i <= k < pos.Length ==> pos[k] == ps[k]
      {
        pos[i] := Add(pos[i], vel[i]);
        i := i + 1;
      }
    }
  }
}
