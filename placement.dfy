/**
  Where `setup` in boids/src/lib.rs puts the boids: one on every point of a
  cubic grid whose axis is Rust's `(-10..20).step_by(4)`, spawned by three
  nested loops (x outermost, z innermost), then two more near the origin.
*/
module Placement {
  import opened Vectors

  /**
    Rust's `(start..end).step_by(step)`: `start`, `start + step`, ... while
    below `end`. The contract pins the range down exactly: it starts at
    `start`, each element is `step` past the one before, every element is
    below `end`, and one more step would reach `end`.
  */
  function StepBy(start: int, end: int, step: int): (r: seq<int>)
    requires 0 < step
    ensures r == [] <==> end <= start
    ensures r != [] ==> r[0] == start && end <= r[|r| - 1] + step
    ensures forall k :: 0 <= k < |r| ==> r[k] < end
    ensures forall k :: 0 < k < |r| ==> r[k] == r[k - 1] + step
    decreases end - start
  {
    if start < end then [start] + StepBy(start + step, end, step) else []
  }

  /** The coordinates used on each axis of the grid. */
  function Axis(): seq<int> {
    StepBy(-10, 20, 4)
  }

  /** The axis holds the eight values -10, -6, ..., 18. */
  lemma AxisValues()
    ensures Axis() == [-10, -6, -2, 2, 6, 10, 14, 18]
  {
  }

  /** The innermost loop: one boid at `(x, y, z)` for each `z` of `zs`, in order. */
  function Row(x: int, y: int, zs: seq<int>): seq<Vec3> {
    seq(|zs|, k requires 0 <= k < |zs| => Vec3(x as real, y as real, zs[k] as real))
  }

  lemma RowGrows(x: int, y: int, zs: seq<int>, c: int)
    requires 0 <= c < |zs|
    ensures Row(x, y, zs[..c + 1]) == Row(x, y, zs[..c]) + [Vec3(x as real, y as real, zs[c] as real)]
  {
  }

  /** The middle loop: the rows for each `y` of `ys`, in order. */
  function Plane(x: int, ys: seq<int>, zs: seq<int>): seq<Vec3> {
    if ys == [] then [] else Plane(x, ys[..|ys| - 1], zs) + Row(x, ys[|ys| - 1], zs)
  }

  /** The outer loop: the planes for each `x` of `xs`, in order. */
  function Grid(xs: seq<int>, ys: seq<int>, zs: seq<int>): seq<Vec3> {
    if xs == [] then [] else Grid(xs[..|xs| - 1], ys, zs) + Plane(xs[|xs| - 1], ys, zs)
  }

  /** Every boid `setup` spawns, in spawn order: the grid, then (1,1,0) and (-1,-1,0). */
  function InitialPositions(): seq<Vec3> {
    Grid(Axis(), Axis(), Axis()) + [Vec3(1.0, 1.0, 0.0), Vec3(-1.0, -1.0, 0.0)]
  }

  predicate Distinct<T(==)>(s: seq<T>) {
    forall i, j :: 0 <= i < j < |s| ==> s[i] != s[j]
  }

  lemma {:induction false} PlaneLength(x: int, ys: seq<int>, zs: seq<int>)
    ensures |Plane(x, ys, zs)| == |ys| * |zs|
  {
    if ys != [] {
      PlaneLength(x, ys[..|ys| - 1], zs);
      var m := |zs|;
      assert (|ys| - 1) * m + m == |ys| * m;
    }
  }

  /** The nested loops spawn one boid per combination of coordinates. */
  lemma {:induction false} GridLength(xs: seq<int>, ys: seq<int>, zs: seq<int>)
    ensures |Grid(xs, ys, zs)| == |xs| * (|ys| * |zs|)
  {
    if xs != [] {
      GridLength(xs[..|xs| - 1], ys, zs);
      PlaneLength(xs[|xs| - 1], ys, zs);
      var n, m := |xs| - 1, |ys| * |zs|;
      assert n * m + m == (n + 1) * m;
    }
  }

  /** `c` is one of the coordinates `cs`, as a real. */
  predicate Among(c: real, cs: seq<int>) {
    exists k :: 0 <= k < |cs| && c == cs[k] as real
  }

  lemma AmongLast(c: real, cs: seq<int>)
    requires cs != []
    ensures Among(c, cs) <==> Among(c, cs[..|cs| - 1]) || c == cs[|cs| - 1] as real
  {
    var front := cs[..|cs| - 1];
    if Among(c, cs) {
      var k :| 0 <= k < |cs| && c == cs[k] as real;
      if k < |front| {
        assert front[k] == cs[k];
      }
    }
    if Among(c, front) {
      var k :| 0 <= k < |front| && c == front[k] as real;
      assert cs[k] == front[k];
    }
  }

  lemma RowMembers(x: int, y: int, zs: seq<int>, p: Vec3)
    ensures p in Row(x, y, zs) <==> p.x == x as real && p.y == y as real && Among(p.z, zs)
  {
    var row := Row(x, y, zs);
    if p in row {
      var k :| 0 <= k < |row| && row[k] == p;
      assert p.z == zs[k] as real;
    }
    if p.x == x as real && p.y == y as real && Among(p.z, zs) {
      var k :| 0 <= k < |zs| && p.z == zs[k] as real;
      assert row[k] == p;
    }
  }

  lemma {:induction false} PlaneMembers(x: int, ys: seq<int>, zs: seq<int>, p: Vec3)
    ensures p in Plane(x, ys, zs) <==> p.x == x as real && Among(p.y, ys) && Among(p.z, zs)
  {
    if ys != [] {
      PlaneMembers(x, ys[..|ys| - 1], zs, p);
      RowMembers(x, ys[|ys| - 1], zs, p);
      AmongLast(p.y, ys);
    }
  }

  /**
    The grid holds exactly the points whose three coordinates are drawn from
    the three axes.
  */
  lemma {:induction false} GridMembers(xs: seq<int>, ys: seq<int>, zs: seq<int>, p: Vec3)
    ensures p in Grid(xs, ys, zs) <==> Among(p.x, xs) && Among(p.y, ys) && Among(p.z, zs)
  {
    if xs != [] {
      GridMembers(xs[..|xs| - 1], ys, zs, p);
      PlaneMembers(xs[|xs| - 1], ys, zs, p);
      AmongLast(p.x, xs);
    }
  }

  lemma DistinctConcat(a: seq<Vec3>, b: seq<Vec3>)
    requires Distinct(a) && Distinct(b)
    requires forall p :: p in a ==> p !in b
    ensures Distinct(a + b)
  {
    var c := a + b;
    forall i, j | 0 <= i < j < |c|
      ensures c[i] != c[j]
    {
      if j < |a| {
        assert c[i] == a[i] && c[j] == a[j];
      } else if |a| <= i {
        assert c[i] == b[i - |a|] && c[j] == b[j - |a|];
      } else {
        assert c[i] == a[i] && c[j] == b[j - |a|];
        assert a[i] in a && b[j - |a|] in b;
      }
    }
  }

  lemma {:induction false} PlaneDistinct(x: int, ys: seq<int>, zs: seq<int>)
    requires Distinct(ys) && Distinct(zs)
    ensures Distinct(Plane(x, ys, zs))
  {
    if ys != [] {
      var front, y := ys[..|ys| - 1], ys[|ys| - 1];
      PlaneDistinct(x, front, zs);
      var row := Row(x, y, zs);
      assert Distinct(row) by {
        forall i, j | 0 <= i < j < |row|
          ensures row[i] != row[j]
        {
          assert zs[i] != zs[j];
        }
      }
      forall p | p in Plane(x, front, zs)
        ensures p !in row
      {
        PlaneMembers(x, front, zs, p);
        var j :| 0 <= j < |front| && p.y == front[j] as real;
        assert ys[j] != y;
      }
      DistinctConcat(Plane(x, front, zs), row);
    }
  }

  /** With repetition-free axes, no point of the grid is spawned twice. */
  lemma {:induction false} GridDistinct(xs: seq<int>, ys: seq<int>, zs: seq<int>)
    requires Distinct(xs) && Distinct(ys) && Distinct(zs)
    ensures Distinct(Grid(xs, ys, zs))
  {
    if xs != [] {
      var front, x := xs[..|xs| - 1], xs[|xs| - 1];
      GridDistinct(front, ys, zs);
      PlaneDistinct(x, ys, zs);
      forall p | p in Grid(front, ys, zs)
        ensures p !in Plane(x, ys, zs)
      {
        GridMembers(front, ys, zs, p);
        PlaneMembers(x, ys, zs, p);
        var i :| 0 <= i < |front| && p.x == front[i] as real;
        assert xs[i] != x;
      }
      DistinctConcat(Grid(front, ys, zs), Plane(x, ys, zs));
    }
  }

  /**
    `setup` spawns 514 boids: the 512 of the grid, then (1,1,0) and (-1,-1,0).
  */
  lemma InitialCount()
    ensures |Grid(Axis(), Axis(), Axis())| == 512
    ensures |InitialPositions()| == 514
    ensures InitialPositions()[512] == Vec3(1.0, 1.0, 0.0)
    ensures InitialPositions()[513] == Vec3(-1.0, -1.0, 0.0)
  {
    var axis := Axis();
    AxisShape();
    GridLength(axis, axis, axis);
  }

  /**
    The grid holds a boid on every point of `{-10,-6,-2,2,6,10,14,18}` cubed
    and nowhere else.
  */
  lemma GridPoints(p: Vec3)
    ensures p in Grid(Axis(), Axis(), Axis()) <==>
              p.x in AxisCoordinates() && p.y in AxisCoordinates() && p.z in AxisCoordinates()
  {
    var axis := Axis();
    GridMembers(axis, axis, axis, p);
    AxisCoordinatesMembers(p.x);
    AxisCoordinatesMembers(p.y);
    AxisCoordinatesMembers(p.z);
  }

  /** No two of the boids `setup` spawns share a position. */
  lemma InitialDistinct()
    ensures Distinct(InitialPositions())
  {
    var axis := Axis();
    AxisShape();
    GridDistinct(axis, axis, axis);
    var grid := Grid(axis, axis, axis);
    var extras := [Vec3(1.0, 1.0, 0.0), Vec3(-1.0, -1.0, 0.0)];
    forall p | p in grid
      ensures p !in extras
    {
      GridMembers(axis, axis, axis, p);
      AxisCoordinatesMembers(p.z);
    }
    DistinctConcat(grid, extras);
  }

  lemma AxisShape()
    ensures |Axis()| == 8 && Distinct(Axis())
    ensures |Axis()| * (|Axis()| * |Axis()|) == 512
  {
    AxisValues();
  }

  /** The axis values as the reals `Transform::from_xyz` receives. */
  function AxisCoordinates(): set<real> {
    {-10.0, -6.0, -2.0, 2.0, 6.0, 10.0, 14.0, 18.0}
  }

  lemma AxisCoordinatesMembers(c: real)
    ensures c in AxisCoordinates() <==> Among(c, Axis())
  {
    var axis := Axis();
    AxisValues();
    if c in AxisCoordinates() {
      if c == -10.0 { assert c == axis[0] as real; }
      else if c == -6.0 { assert c == axis[1] as real; }
      else if c == -2.0 { assert c == axis[2] as real; }
      else if c == 2.0 { assert c == axis[3] as real; }
      else if c == 6.0 { assert c == axis[4] as real; }
      else if c == 10.0 { assert c == axis[5] as real; }
      else if c == 14.0 { assert c == axis[6] as real; }
      else { assert c == axis[7] as real; }
    }
  }
}
