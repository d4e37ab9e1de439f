/**
  Points in display space and the transforms the renderer applies to them.

  The library stores coordinates with the y axis pointing up; the drawing has it
  pointing down, so every raw (x, y) pair is flipped exactly once, to (x, -y).
 */
module Geometry {

  /** A display-space point with integer (library-unit) coordinates. */
  datatype Point = Point(x: int, y: int)

  /** A display-space point whose coordinates may be fractional (halves, from true division). */
  datatype RealPoint = RealPoint(x: real, y: real)

  function ToReal(p: Point): RealPoint {
    RealPoint(p.x as real, p.y as real)
  }

  /** The y flip applied to one raw library coordinate pair. */
  function Flip(x: int, y: int): Point {
    Point(x, -y)
  }

  /** Specification of the polyline point list: consecutive pairs of the flat list, flipped. */
  function FlippedPoints(xs: seq<int>): seq<Point>
    decreases |xs|
  {
    if |xs| < 2 then [] else [Flip(xs[0], xs[1])] + FlippedPoints(xs[2..])
  }

  /** Point i of the list is the pair (xs[2i], xs[2i+1]) flipped; an unpaired last value is dropped. */
  lemma {:induction false} FlippedPointsAt(xs: seq<int>)
    ensures |FlippedPoints(xs)| == |xs| / 2
    ensures forall i :: 0 <= i < |xs| / 2 ==> FlippedPoints(xs)[i] == Point(xs[2 * i], -xs[2 * i + 1])
  {
    if |xs| >= 2 {
      var rest := xs[2..];
      FlippedPointsAt(rest);
      forall i | 0 <= i < |xs| / 2
        ensures FlippedPoints(xs)[i] == Point(xs[2 * i], -xs[2 * i + 1])
      {
        if i > 0 {
          assert FlippedPoints(xs)[i] == FlippedPoints(rest)[i - 1];
          assert rest[2 * (i - 1)] == xs[2 * i];
          assert rest[2 * (i - 1) + 1] == xs[2 * i + 1];
        }
      }
    }
  }

  /**
    The point list of a polyline: reads the flat coordinate list two values at a
    time until it runs out, flipping each pair.
   */
  method Points(xs: seq<int>) returns (ps: seq<Point>)
    ensures |ps| == |xs| / 2
    ensures forall i :: 0 <= i < |ps| ==> ps[i] == Point(xs[2 * i], -xs[2 * i + 1])
    ensures ps == FlippedPoints(xs)
  {
    ps := [];
    var k := 0;
    while k + 1 < |xs|
      invariant 0 <= k <= |xs|
      invariant k == 2 * |ps|
      invariant forall i :: 0 <= i < |ps| ==> ps[i] == Point(xs[2 * i], -xs[2 * i + 1])
    {
      ps := ps + [Point(xs[k], -xs[k + 1])];
      k := k + 2;
    }
    assert |ps| == |xs| / 2;
    FlippedPointsAt(xs);
  }

  /** An SVG rotation: about the origin, or about a given centre. */
  datatype Rotation = Rotate(degrees: int) | RotateAbout(degrees: int, center: Point)

  predicate QuarterTurn(rot: Rotation) {
    rot.degrees % 90 == 0
  }

  function Cos(degrees: int): (c: int)
    requires degrees % 90 == 0
    ensures -1 <= c <= 1
  {
    var q := (degrees / 90) % 4;
    if q == 0 then 1 else if q == 2 then -1 else 0
  }

  function Sin(degrees: int): (s: int)
    requires degrees % 90 == 0
    ensures -1 <= s <= 1
  {
    var q := (degrees / 90) % 4;
    if q == 1 then 1 else if q == 3 then -1 else 0
  }

  /** Where a point drawn inside a group with transform `rot` appears (y pointing down). */
  function Apply(rot: Rotation, p: Point): Point
    requires QuarterTurn(rot)
  {
    var c := if rot.RotateAbout? then rot.center else Point(0, 0);
    var dx, dy := p.x - c.x, p.y - c.y;
    var cos, sin := Cos(rot.degrees), Sin(rot.degrees);
    Point(c.x + Times(dx, cos) - Times(dy, sin), c.y + Times(dx, sin) + Times(dy, cos))
  }

  /** Product with a unit factor, written out so that the solver needs no nonlinear arithmetic. */
  function Times(v: int, unit: int): int
    requires -1 <= unit <= 1
  {
    if unit == 1 then v else if unit == -1 then -v else 0
  }
}
