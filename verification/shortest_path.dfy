/**
 * `BWTA.getShortestPath`: the chokepoint route between two tiles, turned
 * into a tile path by tracing a Bresenham-style ray between each pair of
 * consecutive chokepoint centres.
 *
 * The route itself comes from the terrain analyser and is a parameter here:
 * the sequence of chokepoint centres, already converted to tiles.
 */
module ShortestPath {

  import opened Wrappers
  import opened Snapshot
  import opened Readings

  /**
   * The tiles the inner loop records: `n` tiles from (x, y); after each
   * tile it steps along x when `error > 0` and along y otherwise.
   */
  function Trace(x: int, y: int, error: int, n: nat, xInc: int, yInc: int, dx2: int, dy2: int): seq<TilePosition>
    decreases n
  {
    if n == 0 then
      []
    else if error > 0 then
      [TilePosition(x, y)] + Trace(x + xInc, y, error - dy2, n - 1, xInc, yInc, dx2, dy2)
    else
      [TilePosition(x, y)] + Trace(x, y + yInc, error + dx2, n - 1, xInc, yInc, dx2, dy2)
  }

  /** The direction of the x steps. */
  function XStep(t0: TilePosition, t1: TilePosition): int {
    if t1.x > t0.x then 1 else -1
  }

  /** The direction of the y steps: as written it is taken from the x comparison. */
  function YStep(t0: TilePosition, t1: TilePosition, reading: Reading): int {
    if reading == AsWritten then (if t1.x > t0.x then 1 else -1)
    else (if t1.y > t0.y then 1 else -1)
  }

  /** The ray from `t0` towards `t1`, `1 + |dx| + |dy|` tiles. */
  function Segment(t0: TilePosition, t1: TilePosition, reading: Reading): seq<TilePosition> {
    var dx := Abs(t1.x - t0.x);
    var dy := Abs(t1.y - t0.y);
    Trace(t0.x, t0.y, dx - dy, 1 + dx + dy, XStep(t0, t1), YStep(t0, t1, reading), 2 * dx, 2 * dy)
  }

  /** The whole path: the rays between consecutive chokepoints, in order. */
  function PathOf(chokes: seq<TilePosition>, reading: Reading): seq<TilePosition>
    decreases |chokes|
  {
    if |chokes| < 2 then []
    else PathOf(chokes[..|chokes| - 1], reading) + Segment(chokes[|chokes| - 2], chokes[|chokes| - 1], reading)
  }

  /** The inner loop: traces the ray from `t0` towards `t1` onto the end of `path0`. */
  method AppendRay(path0: seq<TilePosition>, t0: TilePosition, t1: TilePosition) returns (path: seq<TilePosition>)
    ensures path == path0 + Segment(t0, t1, AsWritten)
  {
    path := path0;
    var dx: int := Abs(t1.x - t0.x);
    var dy: int := Abs(t1.y - t0.y);
    var x := t0.x;
    var y := t0.y;
    var n := 1 + dx + dy;
    var xInc := if t1.x > t0.x then 1 else -1;
    var yInc := if t1.x > t0.x then 1 else -1;
    var error := dx - dy;
    dx := dx * 2;
    dy := dy * 2;
    assert Segment(t0, t1, AsWritten) == Trace(x, y, error, n, xInc, yInc, dx, dy);
    while n > 0
      invariant n >= 0
      invariant path0 + Segment(t0, t1, AsWritten) == path + Trace(x, y, error, n, xInc, yInc, dx, dy)
    {
      path := path + [TilePosition(x, y)];
      if error > 0 {
        x := x + xInc;
        error := error - dy;
      } else {
        y := y + yInc;
        error := error + dx;
      }
      n := n - 1;
    }
  }

  /** `getShortestPath`, given the route's chokepoint centres as tiles. */
  method GetShortestPath(chokes: seq<TilePosition>) returns (path: seq<TilePosition>)
    ensures path == PathOf(chokes, AsWritten)
  {
    path := [];
    var curr: Option<TilePosition> := None;
    var i := 0;
    while i < |chokes|
      invariant 0 <= i <= |chokes|
      invariant curr == if i == 0 then None else Some(chokes[i - 1])
      invariant path == PathOf(chokes[..i], AsWritten)
    {
      var next := chokes[i];
      if curr.Some? {
        path := AppendRay(path, curr.value, next);
        assert chokes[..i + 1][..i] == chokes[..i];
      }
      curr := Some(next);
      i := i + 1;
    }
    assert chokes[..i] == chokes;
  }

  // ---------------------------------------------------------------------
  // Properties of one ray

  lemma {:induction false} TraceLength(x: int, y: int, error: int, n: nat, xInc: int, yInc: int, dx2: int, dy2: int)
    ensures |Trace(x, y, error, n, xInc, yInc, dx2, dy2)| == n
    decreases n
  {
    if n > 0 {
      if error > 0 {
        TraceLength(x + xInc, y, error - dy2, n - 1, xInc, yInc, dx2, dy2);
      } else {
        TraceLength(x, y + yInc, error + dx2, n - 1, xInc, yInc, dx2, dy2);
      }
    }
  }

  /** One step of the ray: one unit along exactly one axis, in that axis's direction. */
  predicate Step(a: TilePosition, b: TilePosition, xInc: int, yInc: int) {
    (b.x == a.x + xInc && b.y == a.y) || (b.x == a.x && b.y == a.y + yInc)
  }

  /** Consecutive tiles of a ray are one step apart. */
  lemma {:induction false} TraceSteps(x: int, y: int, error: int, n: nat, xInc: int, yInc: int, dx2: int, dy2: int)
    ensures var s := Trace(x, y, error, n, xInc, yInc, dx2, dy2);
            forall k :: 0 <= k < |s| - 1 ==> Step(s[k], s[k + 1], xInc, yInc)
    decreases n
  {
    TraceLength(x, y, error, n, xInc, yInc, dx2, dy2);
    if n > 1 {
      var s := Trace(x, y, error, n, xInc, yInc, dx2, dy2);
      var x', y', e' := if error > 0 then x + xInc else x, if error > 0 then y else y + yInc,
                        if error > 0 then error - dy2 else error + dx2;
      var rest := Trace(x', y', e', n - 1, xInc, yInc, dx2, dy2);
      assert s == [TilePosition(x, y)] + rest;
      TraceSteps(x', y', e', n - 1, xInc, yInc, dx2, dy2);
      TraceLength(x', y', e', n - 1, xInc, yInc, dx2, dy2);
      assert rest[0] == TilePosition(x', y');
      forall k | 0 <= k < |s| - 1
        ensures Step(s[k], s[k + 1], xInc, yInc)
      {
        if k > 0 {
          assert s[k] == rest[k - 1] && s[k + 1] == rest[k];
        }
      }
    }
  }

  /** `a * b >= a` for a non-negative `a` and a positive `b`. */
  lemma AtLeastOnce(a: int, b: int)
    requires a >= 0 && b >= 1
    ensures a * b >= a
  {
  }

  /** With the loop's error term, a positive error leaves an x step to take. */
  lemma XStepLeft(dx: int, dy: int, ra: int, rb: int, pa: int, pb: int, error: int)
    requires 0 <= ra <= dx && 0 <= rb <= dy && ra + rb > 0
    requires pa == dy * ra && pb == dx * rb
    requires error == dx - dy + 2 * pa - 2 * pb && error > 0
    ensures ra > 0
  {
    if ra == 0 {
      AtLeastOnce(dx, rb);
    }
  }

  /** With the loop's error term, a non-positive error leaves a y step to take. */
  lemma YStepLeft(dx: int, dy: int, ra: int, rb: int, pa: int, pb: int, error: int)
    requires 0 <= ra <= dx && 0 <= rb <= dy && ra + rb > 0
    requires pa == dy * ra && pb == dx * rb
    requires error == dx - dy + 2 * pa - 2 * pb && error <= 0
    ensures rb > 0
  {
    if rb == 0 {
      AtLeastOnce(dy, ra);
    }
  }

  /** One step fewer: `a * (b - 1) == a * b - a`. */
  lemma OneFewer(a: int, b: int)
    ensures a * (b - 1) == a * b - a
  {
  }

  /**
   * The ray's last tile. With `ra` x steps and `rb` y steps still to take,
   * `pa == dy * ra`, `pb == dx * rb` and the error term the loop keeps for
   * them, the last tile is `(ex, ey)`: `ra` steps along x and `rb` along y away.
   */
  lemma {:induction false} TraceEnd(x: int, y: int, xInc: int, yInc: int, dx: int, dy: int, ra: int, rb: int,
                                    pa: int, pb: int, ex: int, ey: int, error: int)
    requires 0 <= ra <= dx && 0 <= rb <= dy
    requires pa == dy * ra && pb == dx * rb
    requires ex == x + xInc * ra && ey == y + yInc * rb
    requires error == dx - dy + 2 * pa - 2 * pb
    ensures var s := Trace(x, y, error, 1 + ra + rb, xInc, yInc, 2 * dx, 2 * dy);
            |s| > 0 && s[|s| - 1] == TilePosition(ex, ey)
    decreases ra + rb
  {
    var s := Trace(x, y, error, 1 + ra + rb, xInc, yInc, 2 * dx, 2 * dy);
    TraceLength(x, y, error, 1 + ra + rb, xInc, yInc, 2 * dx, 2 * dy);
    if ra + rb > 0 {
      if error > 0 {
        XStepLeft(dx, dy, ra, rb, pa, pb, error);
        var rest := Trace(x + xInc, y, error - 2 * dy, ra + rb, xInc, yInc, 2 * dx, 2 * dy);
        assert s == [TilePosition(x, y)] + rest;
        OneFewer(dy, ra);
        OneFewer(xInc, ra);
        TraceEnd(x + xInc, y, xInc, yInc, dx, dy, ra - 1, rb, pa - dy, pb, ex, ey, error - 2 * dy);
        assert s[|s| - 1] == rest[|rest| - 1];
      } else {
        YStepLeft(dx, dy, ra, rb, pa, pb, error);
        var rest := Trace(x, y + yInc, error + 2 * dx, ra + rb, xInc, yInc, 2 * dx, 2 * dy);
        assert s == [TilePosition(x, y)] + rest;
        OneFewer(dx, rb);
        OneFewer(yInc, rb);
        TraceEnd(x, y + yInc, xInc, yInc, dx, dy, ra, rb - 1, pa, pb - dx, ex, ey, error + 2 * dx);
        assert s[|s| - 1] == rest[|rest| - 1];
      }
    }
  }

  /** A ray starts on `t0`, has `1 + |dx| + |dy|` tiles, and moves one step at a time. */
  lemma SegmentShape(t0: TilePosition, t1: TilePosition, reading: Reading)
    ensures var s := Segment(t0, t1, reading);
            && |s| == 1 + Abs(t1.x - t0.x) + Abs(t1.y - t0.y)
            && s[0] == t0
            && forall k :: 0 <= k < |s| - 1 ==> Step(s[k], s[k + 1], XStep(t0, t1), YStep(t0, t1, reading))
  {
    var dx: int := Abs(t1.x - t0.x);
    var dy: int := Abs(t1.y - t0.y);
    var error := dx - dy;
    var n: nat := 1 + dx + dy;
    var xInc, yInc := XStep(t0, t1), YStep(t0, t1, reading);
    assert Segment(t0, t1, reading) == Trace(t0.x, t0.y, error, n, xInc, yInc, 2 * dx, 2 * dy);
    TraceLength(t0.x, t0.y, error, n, xInc, yInc, 2 * dx, 2 * dy);
    TraceSteps(t0.x, t0.y, error, n, xInc, yInc, 2 * dx, 2 * dy);
  }

  /** The ray's last tile: `|dx|` x steps and `|dy|` y steps from `t0`. */
  lemma SegmentEnd(t0: TilePosition, t1: TilePosition, reading: Reading)
    ensures var s := Segment(t0, t1, reading);
            var dx := Abs(t1.x - t0.x);
            var dy := Abs(t1.y - t0.y);
            |s| > 0 && s[|s| - 1] == TilePosition(t0.x + XStep(t0, t1) * dx, t0.y + YStep(t0, t1, reading) * dy)
  {
    var dx: int := Abs(t1.x - t0.x);
    var dy: int := Abs(t1.y - t0.y);
    var error := dx - dy;
    var xInc, yInc := XStep(t0, t1), YStep(t0, t1, reading);
    assert Segment(t0, t1, reading) == Trace(t0.x, t0.y, error, 1 + dx + dy, xInc, yInc, 2 * dx, 2 * dy);
    var p := dx * dy;
    assert dy * dx == p;
    TraceEnd(t0.x, t0.y, xInc, yInc, dx, dy, dx, dy, p, p, t0.x + xInc * dx, t0.y + yInc * dy, error);
  }

  /** Read as intended, every ray ends on its target chokepoint. */
  lemma IntendedSegmentReachesTarget(t0: TilePosition, t1: TilePosition)
    ensures var s := Segment(t0, t1, Intended);
            |s| > 0 && s[0] == t0 && s[|s| - 1] == t1
  {
    SegmentShape(t0, t1, Intended);
    SegmentEnd(t0, t1, Intended);
  }

  /**
   * As written, the ray always ends in the target's column, and on the target
   * itself exactly when the y direction happens to agree with the x direction.
   */
  lemma AsWrittenSegmentEnd(t0: TilePosition, t1: TilePosition)
    ensures var s := Segment(t0, t1, AsWritten);
            |s| > 0 && s[|s| - 1].x == t1.x
            && (s[|s| - 1] == t1 <==> t1.y == t0.y || (t1.y > t0.y) == (t1.x > t0.x))
  {
    SegmentEnd(t0, t1, AsWritten);
  }

  /** As written, the ray from (0, 0) towards (1, -1) is (0, 0), (0, 1), (1, 1): it ends off the target. */
  lemma AsWrittenMissesTarget()
    ensures Segment(TilePosition(0, 0), TilePosition(1, -1), AsWritten)
         == [TilePosition(0, 0), TilePosition(0, 1), TilePosition(1, 1)]
  {
    assert Segment(TilePosition(0, 0), TilePosition(1, -1), AsWritten) == Trace(0, 0, 0, 3, 1, 1, 2, 2);
    assert Trace(1, 1, 0, 1, 1, 1, 2, 2) == [TilePosition(1, 1)];
    assert Trace(0, 1, 2, 2, 1, 1, 2, 2) == [TilePosition(0, 1), TilePosition(1, 1)];
  }

  // ---------------------------------------------------------------------
  // Properties of the whole path

  /** Fewer than two chokepoints give the empty path. */
  lemma ShortRouteEmptyPath(chokes: seq<TilePosition>, reading: Reading)
    requires |chokes| < 2
    ensures PathOf(chokes, reading) == []
  {
  }

  /** The number of tiles the path holds: one ray per consecutive pair. */
  function RouteTiles(chokes: seq<TilePosition>): nat
    decreases |chokes|
  {
    if |chokes| < 2 then 0
    else
      var a := chokes[|chokes| - 2];
      var b := chokes[|chokes| - 1];
      RouteTiles(chokes[..|chokes| - 1]) + 1 + Abs(b.x - a.x) + Abs(b.y - a.y)
  }

  lemma {:induction false} PathLength(chokes: seq<TilePosition>, reading: Reading)
    ensures |PathOf(chokes, reading)| == RouteTiles(chokes)
    decreases |chokes|
  {
    if |chokes| >= 2 {
      PathLength(chokes[..|chokes| - 1], reading);
      SegmentShape(chokes[|chokes| - 2], chokes[|chokes| - 1], reading);
    }
  }

  /** Read as intended, a path over two or more chokepoints starts on the first and ends on the last. */
  lemma {:induction false} IntendedPathJoinsEnds(chokes: seq<TilePosition>)
    requires |chokes| >= 2
    ensures var p := PathOf(chokes, Intended);
            |p| > 0 && p[0] == chokes[0] && p[|p| - 1] == chokes[|chokes| - 1]
    decreases |chokes|
  {
    var init := chokes[..|chokes| - 1];
    IntendedSegmentReachesTarget(chokes[|chokes| - 2], chokes[|chokes| - 1]);
    if |chokes| > 2 {
      IntendedPathJoinsEnds(init);
    }
  }

  /**
   * Segments are appended whole: read as intended, the chokepoint where two
   * rays meet appears twice in a row, once as the end of one ray and once as
   * the start of the next.
   */
  lemma IntendedJointRepeated(chokes: seq<TilePosition>)
    requires |chokes| >= 3
    ensures var p := PathOf(chokes, Intended);
            var k := |PathOf(chokes[..|chokes| - 1], Intended)|;
            0 < k < |p| && p[k - 1] == chokes[|chokes| - 2] && p[k] == chokes[|chokes| - 2]
  {
    var init := chokes[..|chokes| - 1];
    IntendedPathJoinsEnds(init);
    IntendedSegmentReachesTarget(chokes[|chokes| - 2], chokes[|chokes| - 1]);
    assert init[|init| - 1] == chokes[|chokes| - 2];
  }
}
