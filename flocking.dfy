/**
  The flocking rule of boids/src/lib.rs as functions over one snapshot of the
  flock: `ps` holds every boid's position and `vs` its velocity, both indexed
  by boid (the index stands for the ECS entity). `emergent_system` is specified
  by `NextVelocities`, `move_system` by `Advance`.
*/
module Flocking {
  import opened Vectors

  const MAX_SPEED: real := 1.0
  const COHERENCE: real := 0.01
  const PERSONAL_SPACE: real := 2.0
  const VELOCITY_FACTOR: real := 0.01
  /** The weight with which the summed steering terms are added to a velocity. */
  const DELTA_WEIGHT: real := 0.1

  // ---------------------------------------------------------------------------
  // Aggregate pass

  /** Reference definition: the sum of a sequence of vectors. */
  function Sum(s: seq<Vec3>): Vec3 {
    if s == [] then Zero else Add(s[0], Sum(s[1..]))
  }

  /** The fold over velocities: a left fold that adds each velocity to the accumulator. */
  function VelocityFold(s: seq<Vec3>, acc: Vec3): Vec3 {
    if s == [] then acc else VelocityFold(s[1..], Add(acc, s[0]))
  }

  /** The fold over positions: one pass that adds each position and counts one per boid. */
  function CenterFold(s: seq<Vec3>, acc: (Vec3, int)): (Vec3, int) {
    if s == [] then acc else CenterFold(s[1..], (Add(acc.0, s[0]), acc.1 + 1))
  }

  lemma {:induction false} VelocityFoldSums(s: seq<Vec3>, acc: Vec3)
    ensures VelocityFold(s, acc) == Add(acc, Sum(s))
  {
    if s != [] {
      VelocityFoldSums(s[1..], Add(acc, s[0]));
    }
  }

  lemma {:induction false} CenterFoldSumsAndCounts(s: seq<Vec3>, acc: (Vec3, int))
    ensures CenterFold(s, acc) == (Add(acc.0, Sum(s)), acc.1 + |s|)
  {
    if s != [] {
      CenterFoldSumsAndCounts(s[1..], (Add(acc.0, s[0]), acc.1 + 1));
    }
  }

  datatype Aggregate = Aggregate(centerSum: Vec3, numOtherBoids: int, velocitySum: Vec3)

  /**
    The aggregate pass: the position fold starts its count at -1, so the count
    it returns is the number of boids other than any one boid.
  */
  function Aggregates(ps: seq<Vec3>, vs: seq<Vec3>): (a: Aggregate)
    ensures a.centerSum == Sum(ps)
    ensures a.numOtherBoids == |ps| - 1
    ensures a.velocitySum == Sum(vs)
  {
    var centered := CenterFold(ps, (Zero, -1));
    CenterFoldSumsAndCounts(ps, (Zero, -1));
    VelocityFoldSums(vs, Zero);
    Aggregate(centered.0, centered.1, VelocityFold(vs, Zero))
  }

  // ---------------------------------------------------------------------------
  // Coherence and alignment

  /** The sequence without its element at index `i`. */
  function Without(s: seq<Vec3>, i: int): seq<Vec3>
    requires 0 <= i < |s|
  {
    s[..i] + s[i + 1..]
  }

  function Mean(s: seq<Vec3>): Vec3
    requires s != []
  {
    Div(Sum(s), |s| as real)
  }

  lemma {:induction false} SumWithout(s: seq<Vec3>, i: int)
    requires 0 <= i < |s|
    ensures Sum(s) == Add(s[i], Sum(Without(s, i)))
  {
    if i == 0 {
      assert Without(s, 0) == s[1..];
    } else {
      SumWithout(s[1..], i - 1);
      assert Without(s, i)[0] == s[0];
      assert Without(s, i)[1..] == Without(s[1..], i - 1);
    }
  }

  /**
    The offset of a boid's own value from the mean of the other boids' values,
    computed as the source does from the total `sum` and the count
    `numOtherBoids`.
  */
  function TowardOthers(sum: Vec3, numOtherBoids: int, mine: Vec3): Vec3
    requires numOtherBoids != 0
  {
    Sub(Div(Sub(sum, mine), numOtherBoids as real), mine)
  }

  /**
    Self-exclusion: from the total of all boids and the count n - 1,
    `TowardOthers` is exactly the offset from the mean of the OTHER boids.
  */
  lemma TowardOthersMean(s: seq<Vec3>, i: int)
    requires 2 <= |s| && 0 <= i < |s|
    ensures TowardOthers(Sum(s), |s| - 1, s[i]) == Sub(Mean(Without(s, i)), s[i])
  {
    var others := Without(s, i);
    var n := |s| - 1;
    assert |others| == n;
    SumWithout(s, i);
    var rest := Sum(others);
    TowardRest(Sum(s), rest, s[i], n);
    assert Mean(others) == Div(rest, n as real);
  }

  lemma TowardRest(total: Vec3, rest: Vec3, mine: Vec3, count: int)
    requires total == Add(mine, rest) && count != 0
    ensures TowardOthers(total, count, mine) == Sub(Div(rest, count as real), mine)
  {
    assert Sub(total, mine) == rest;
  }

  function Coherence(centerSum: Vec3, numOtherBoids: int, myPosition: Vec3): Vec3
    requires numOtherBoids != 0
  {
    Scale(TowardOthers(centerSum, numOtherBoids, myPosition), COHERENCE)
  }

  function Alignment(velocitySum: Vec3, numOtherBoids: int, myVelocity: Vec3): Vec3
    requires numOtherBoids != 0
  {
    Scale(TowardOthers(velocitySum, numOtherBoids, myVelocity), VELOCITY_FACTOR)
  }

  // ---------------------------------------------------------------------------
  // Avoidance

  /**
    An offset within personal space. The source compares `length()` with
    PERSONAL_SPACE; `LengthWithin` shows this is the same test on squares.
  */
  predicate Crowds(away: Vec3) {
    LengthSq(away) <= PERSONAL_SPACE * PERSONAL_SPACE
  }

  /** The avoidance scan after its first `n` boids, for boid `i` at `myPosition`. */
  function AvoidanceUpTo(ps: seq<Vec3>, i: int, myPosition: Vec3, n: nat): Vec3
    requires n <= |ps|
  {
    if n == 0 then Zero
    else
      var acc := AvoidanceUpTo(ps, i, myPosition, n - 1);
      var away := Sub(myPosition, ps[n - 1]);
      if n - 1 != i && Crowds(away) then Add(acc, away) else acc
  }

  /** Boid `i`'s avoidance vector: the unweighted sum of its offsets from every crowding other boid. */
  function Avoidance(ps: seq<Vec3>, i: int): Vec3
    requires 0 <= i < |ps|
  {
    AvoidanceUpTo(ps, i, ps[i], |ps|)
  }

  lemma {:induction false} AvoidanceUpToAlone(ps: seq<Vec3>, i: int, myPosition: Vec3, n: nat)
    requires n <= |ps|
    requires forall j :: 0 <= j < n && j != i ==> !Crowds(Sub(myPosition, ps[j]))
    ensures AvoidanceUpTo(ps, i, myPosition, n) == Zero
  {
    if n > 0 {
      AvoidanceUpToAlone(ps, i, myPosition, n - 1);
    }
  }

  /** With no other boid within personal space, the avoidance vector is zero. */
  lemma AvoidanceAlone(ps: seq<Vec3>, i: int)
    requires 0 <= i < |ps|
    requires forall j :: 0 <= j < |ps| && j != i ==> !Crowds(Sub(ps[i], ps[j]))
    ensures Avoidance(ps, i) == Zero
  {
    AvoidanceUpToAlone(ps, i, ps[i], |ps|);
  }

  lemma {:induction false} AvoidanceUpToOne(ps: seq<Vec3>, i: int, k: int, myPosition: Vec3, n: nat)
    requires n <= |ps| && 0 <= k < |ps| && k != i
    requires Crowds(Sub(myPosition, ps[k]))
    requires forall j :: 0 <= j < n && j != i && j != k ==> !Crowds(Sub(myPosition, ps[j]))
    ensures AvoidanceUpTo(ps, i, myPosition, n) == if k < n then Sub(myPosition, ps[k]) else Zero
  {
    if n > 0 {
      AvoidanceUpToOne(ps, i, k, myPosition, n - 1);
    }
  }

  /**
    No weighting: with exactly one other boid `k` within personal space, the
    avoidance vector is the plain offset from it, however near it is.
  */
  lemma AvoidanceOne(ps: seq<Vec3>, i: int, k: int)
    requires 0 <= i < |ps| && 0 <= k < |ps| && k != i
    requires Crowds(Sub(ps[i], ps[k]))
    requires forall j :: 0 <= j < |ps| && j != i && j != k ==> !Crowds(Sub(ps[i], ps[j]))
    ensures Avoidance(ps, i) == Sub(ps[i], ps[k])
  {
    AvoidanceUpToOne(ps, i, k, ps[i], |ps|);
  }

  lemma {:induction false} AvoidanceUpToIgnoresSelf(ps: seq<Vec3>, i: int, p: Vec3, myPosition: Vec3, n: nat)
    requires n <= |ps| && 0 <= i < |ps|
    ensures AvoidanceUpTo(ps[i := p], i, myPosition, n) == AvoidanceUpTo(ps, i, myPosition, n)
  {
    if n > 0 {
      AvoidanceUpToIgnoresSelf(ps, i, p, myPosition, n - 1);
    }
  }

  /**
    Self never contributes: whatever is stored in boid `i`'s own slot, the
    scan for boid `i` from the same position gives the same vector.
  */
  lemma AvoidanceIgnoresSelf(ps: seq<Vec3>, i: int, p: Vec3)
    requires 0 <= i < |ps|
    ensures AvoidanceUpTo(ps[i := p], i, ps[i], |ps|) == Avoidance(ps, i)
  {
    AvoidanceUpToIgnoresSelf(ps, i, p, ps[i], |ps|);
  }

  /** What boid `j` adds to boid `i`'s avoidance vector: its offset if it is another boid crowding `i`, else nothing. */
  function Contribution(ps: seq<Vec3>, i: int, myPosition: Vec3, j: int): Vec3
    requires 0 <= j < |ps|
  {
    var away := Sub(myPosition, ps[j]);
    if j != i && Crowds(away) then away else Zero
  }

  function Contributions(ps: seq<Vec3>, i: int, myPosition: Vec3): seq<Vec3> {
    seq(|ps|, j requires 0 <= j < |ps| => Contribution(ps, i, myPosition, j))
  }

  lemma {:induction false} SumAppend(s: seq<Vec3>, v: Vec3)
    ensures Sum(s + [v]) == Add(Sum(s), v)
  {
    if s != [] {
      assert (s + [v])[1..] == s[1..] + [v];
      SumAppend(s[1..], v);
    }
  }

  lemma {:induction false} AvoidanceUpToSum(ps: seq<Vec3>, i: int, myPosition: Vec3, n: nat)
    requires n <= |ps|
    ensures AvoidanceUpTo(ps, i, myPosition, n) == Sum(Contributions(ps, i, myPosition)[..n])
  {
    var all := Contributions(ps, i, myPosition);
    if n == 0 {
      assert all[..0] == [];
    } else {
      AvoidanceUpToSum(ps, i, myPosition, n - 1);
      assert all[..n] == all[..n - 1] + [all[n - 1]];
      SumAppend(all[..n - 1], all[n - 1]);
    }
  }

  /**
    The avoidance scan adds up, over every boid, that boid's contribution:
    the plain offset from each other boid within personal space, and nothing
    from the boid itself or from boids farther away.
  */
  lemma AvoidanceIsSum(ps: seq<Vec3>, i: int)
    requires 0 <= i < |ps|
    ensures Avoidance(ps, i) == Sum(Contributions(ps, i, ps[i]))
  {
    var all := Contributions(ps, i, ps[i]);
    AvoidanceUpToSum(ps, i, ps[i], |ps|);
    assert all[..|ps|] == all;
  }

  lemma LengthSqNeg(v: Vec3)
    ensures LengthSq(Neg(v)) == LengthSq(v)
  {
  }

  /**
    Two boids push each other apart equally: each one's avoidance vector is the
    other's reversed, the offset between them when within personal space and
    zero otherwise.
  */
  lemma AvoidancePair(ps: seq<Vec3>)
    requires |ps| == 2
    ensures Avoidance(ps, 0) == if Crowds(Sub(ps[0], ps[1])) then Sub(ps[0], ps[1]) else Zero
    ensures Avoidance(ps, 1) == Neg(Avoidance(ps, 0))
  {
    assert Sub(ps[1], ps[0]) == Neg(Sub(ps[0], ps[1]));
    LengthSqNeg(Sub(ps[0], ps[1]));
    var away := Sub(ps[0], ps[1]);
    assert Crowds(Sub(ps[1], ps[0])) == Crowds(away);
    assert AvoidanceUpTo(ps, 0, ps[0], 1) == Zero;
    assert Avoidance(ps, 0) == if Crowds(away) then away else Zero;
    assert AvoidanceUpTo(ps, 1, ps[1], 0) == Zero;
    assert Avoidance(ps, 1) == AvoidanceUpTo(ps, 1, ps[1], 1);
    assert Avoidance(ps, 1) == if Crowds(away) then Neg(away) else Zero;
    assert Neg(Zero) == Zero;
  }

  // ---------------------------------------------------------------------------
  // The velocity update

  /** The three steering terms added together, from the pre-tick snapshot. */
  function VelocityDelta(ps: seq<Vec3>, vs: seq<Vec3>, i: int): Vec3
    requires |ps| == |vs| && 2 <= |ps| && 0 <= i < |ps|
  {
    Add(Add(Coherence(Sum(ps), |ps| - 1, ps[i]), Avoidance(ps, i)),
        Alignment(Sum(vs), |vs| - 1, vs[i]))
  }

  /**
    What the steering terms mean: coherence toward the mean position of the
    other boids, avoidance, and alignment toward the mean velocity of the other
    boids; the boid itself is in neither mean.
  */
  lemma VelocityDeltaMeaning(ps: seq<Vec3>, vs: seq<Vec3>, i: int)
    requires |ps| == |vs| && 2 <= |ps| && 0 <= i < |ps|
    ensures VelocityDelta(ps, vs, i)
         == Add(Add(Scale(Sub(Mean(Without(ps, i)), ps[i]), COHERENCE), Avoidance(ps, i)),
                Scale(Sub(Mean(Without(vs, i)), vs[i]), VELOCITY_FACTOR))
  {
    TowardOthersMean(ps, i);
    TowardOthersMean(vs, i);
  }

  /** Boid `i`'s velocity with the weighted delta added, before the clamp. */
  function Steered(ps: seq<Vec3>, vs: seq<Vec3>, i: int): Vec3
    requires |ps| == |vs| && 2 <= |ps| && 0 <= i < |ps|
  {
    Add(vs[i], Scale(VelocityDelta(ps, vs, i), DELTA_WEIGHT))
  }

  /** Boid `i`'s velocity after the tick: the steered velocity clamped to MAX_SPEED. */
  function NewVelocity(ps: seq<Vec3>, vs: seq<Vec3>, i: int, sqrt: real -> real): Vec3
    requires |ps| == |vs| && 2 <= |ps| && 0 <= i < |ps| && IsSqrt(sqrt)
  {
    ClampLengthMax(Steered(ps, vs, i), MAX_SPEED, sqrt)
  }

  /**
    The velocities after one tick: every boid's new velocity is computed from
    the same pre-tick snapshot, and every one is within MAX_SPEED.
  */
  function NextVelocities(ps: seq<Vec3>, vs: seq<Vec3>, sqrt: real -> real): (r: seq<Vec3>)
    requires |ps| == |vs| && 2 <= |ps| && IsSqrt(sqrt)
    ensures |r| == |vs|
    ensures forall i :: 0 <= i < |r| ==> LengthSq(r[i]) <= MAX_SPEED * MAX_SPEED
  {
    seq(|vs|, i requires 0 <= i < |vs| => NewVelocity(ps, vs, i, sqrt))
  }

  lemma MeanSingle(v: Vec3)
    ensures Mean([v]) == v
  {
    assert [v][1..] == [];
    assert Sum([v]) == v;
    assert v.x / 1.0 == v.x && v.y / 1.0 == v.y && v.z / 1.0 == v.z;
  }

  /**
    In a flock of two, each boid's coherence term is the plain displacement
    toward the other boid scaled by COHERENCE, and its alignment term the
    difference of the two velocities scaled by VELOCITY_FACTOR: no share of
    the boid itself enters either.
  */
  lemma PairDelta(ps: seq<Vec3>, vs: seq<Vec3>, i: int)
    requires |ps| == |vs| == 2 && 0 <= i < 2
    ensures VelocityDelta(ps, vs, i)
         == Add(Add(Scale(Sub(ps[1 - i], ps[i]), COHERENCE), Avoidance(ps, i)),
                Scale(Sub(vs[1 - i], vs[i]), VELOCITY_FACTOR))
  {
    VelocityDeltaMeaning(ps, vs, i);
    assert Without(ps, i) == [ps[1 - i]];
    assert Without(vs, i) == [vs[1 - i]];
    MeanSingle(ps[1 - i]);
    MeanSingle(vs[1 - i]);
  }

  /**
    Two boids at rest, farther apart than personal space: avoidance and
    alignment vanish and each boid is steered toward the other by the weighted
    coherence term alone.
  */
  lemma PairAtRest(a: Vec3, b: Vec3)
    requires !Crowds(Sub(a, b))
    ensures Steered([a, b], [Zero, Zero], 0) == Scale(Scale(Sub(b, a), COHERENCE), DELTA_WEIGHT)
    ensures Steered([a, b], [Zero, Zero], 1) == Scale(Scale(Sub(a, b), COHERENCE), DELTA_WEIGHT)
  {
    var ps, vs := [a, b], [Zero, Zero];
    AvoidancePair(ps);
    assert Avoidance(ps, 0) == Zero && Avoidance(ps, 1) == Zero;
    assert Scale(Sub(Zero, Zero), VELOCITY_FACTOR) == Zero;
    PairDelta(ps, vs, 0);
    assert VelocityDelta(ps, vs, 0) == Scale(Sub(b, a), COHERENCE);
    PairDelta(ps, vs, 1);
    assert VelocityDelta(ps, vs, 1) == Scale(Sub(a, b), COHERENCE);
  }

  /**
    The two-boid example: two boids at rest, `b` three units from `a` along the
    x axis (as with `a` = (0,0,0) and `b` = (3,0,0)), leave the tick with
    velocities (0.003,0,0) and (-0.003,0,0): the steered velocities are
    already within MAX_SPEED, so the clamp keeps them.
  */
  lemma TwoBoidScenario(a: Vec3, b: Vec3, sqrt: real -> real)
    requires Sub(b, a) == Vec3(3.0, 0.0, 0.0) && IsSqrt(sqrt)
    ensures NewVelocity([a, b], [Zero, Zero], 0, sqrt) == Vec3(0.003, 0.0, 0.0)
    ensures NewVelocity([a, b], [Zero, Zero], 1, sqrt) == Vec3(-0.003, 0.0, 0.0)
  {
    TwoBoidSteering(a, b);
    SlowEnough(0.003);
    SlowEnough(-0.003);
  }

  lemma TwoBoidSteering(a: Vec3, b: Vec3)
    requires Sub(b, a) == Vec3(3.0, 0.0, 0.0)
    ensures Steered([a, b], [Zero, Zero], 0) == Vec3(0.003, 0.0, 0.0)
    ensures Steered([a, b], [Zero, Zero], 1) == Vec3(-0.003, 0.0, 0.0)
  {
    ScenarioApart(a, b);
    ScenarioCoherence(a, b);
    PairAtRest(a, b);
  }

  /** The weighted coherence terms of the two-boid example. */
  lemma ScenarioCoherence(a: Vec3, b: Vec3)
    requires Sub(b, a) == Vec3(3.0, 0.0, 0.0)
    ensures Scale(Scale(Sub(b, a), COHERENCE), DELTA_WEIGHT) == Vec3(0.003, 0.0, 0.0)
    ensures Scale(Scale(Sub(a, b), COHERENCE), DELTA_WEIGHT) == Vec3(-0.003, 0.0, 0.0)
  {
    ScenarioDistance(a, b);
    AxisCoherence(a, b, 3.0);
    ThousandthOf(3.0, 0.003);
    AxisCoherence(b, a, -3.0);
    ThousandthOf(-3.0, -0.003);
  }

  lemma ScenarioApart(a: Vec3, b: Vec3)
    requires Sub(b, a) == Vec3(3.0, 0.0, 0.0)
    ensures !Crowds(Sub(a, b))
  {
    ScenarioDistance(a, b);
    assert PERSONAL_SPACE * PERSONAL_SPACE == 4.0;
  }

  lemma ThousandthOf(dx: real, r: real)
    requires dx == 1000.0 * r
    ensures dx * 0.001 == r
  {
  }

  lemma SlowEnough(vx: real)
    requires -1.0 <= vx <= 1.0
    ensures LengthSq(Vec3(vx, 0.0, 0.0)) <= MAX_SPEED * MAX_SPEED
  {
    assert MAX_SPEED * MAX_SPEED == 1.0;
    if 0.0 <= vx {
      assert vx * vx <= vx;
    } else {
      assert vx * vx <= -vx;
    }
  }

  lemma ScenarioDistance(a: Vec3, b: Vec3)
    requires Sub(b, a) == Vec3(3.0, 0.0, 0.0)
    ensures Sub(a, b) == Vec3(-3.0, 0.0, 0.0)
    ensures LengthSq(Sub(a, b)) == 9.0
  {
    var d := Sub(a, b);
    assert d == Vec3(-3.0, 0.0, 0.0);
    assert d.x * d.x == 9.0;
  }

  /** The weighted coherence of a boid whose only neighbour lies `dx` away along the x axis. */
  lemma AxisCoherence(from: Vec3, to: Vec3, dx: real)
    requires Sub(to, from) == Vec3(dx, 0.0, 0.0)
    ensures Scale(Scale(Sub(to, from), COHERENCE), DELTA_WEIGHT) == Vec3(dx * 0.001, 0.0, 0.0)
  {
    var c := Scale(Sub(to, from), COHERENCE);
    assert c == Vec3(dx * 0.01, 0.0, 0.0);
    assert (dx * 0.01) * 0.1 == dx * 0.001;
  }

  // ---------------------------------------------------------------------------
  // Integration

  /** Unit-step Euler integration: every boid is displaced by exactly its velocity. */
  function Advance(ps: seq<Vec3>, vs: seq<Vec3>): (r: seq<Vec3>)
    requires |ps| == |vs|
    ensures |r| == |ps|
    ensures forall i :: 0 <= i < |ps| ==> Sub(r[i], ps[i]) == vs[i]
  {
    seq(|ps|, i requires 0 <= i < |ps| => Add(ps[i], vs[i]))
  }
}
