/**
  The running bounding box of a drawing: four integer extents that only ever
  grow, fed one point at a time, then padded on every side to give the viewbox.
 */
module Bounds {
  import opened Geometry

  /** The value of the box: its four extents. */
  datatype Extent = Extent(minX: int, maxX: int, minY: int, maxY: int)

  /** The box the program starts from: every extent zero, so it holds the origin. */
  const Origin := Extent(0, 0, 0, 0)

  /** Margin added on each side of the accumulated box before it becomes the viewbox. */
  const Padding := 250

  predicate Contains(e: Extent, p: Point) {
    e.minX <= p.x <= e.maxX && e.minY <= p.y <= e.maxY
  }

  /** `outer` reaches at least as far as `inner` on every side. */
  predicate Encloses(outer: Extent, inner: Extent) {
    outer.minX <= inner.minX && inner.maxX <= outer.maxX &&
    outer.minY <= inner.minY && inner.maxY <= outer.maxY
  }

  function Width(e: Extent): int {
    e.maxX - e.minX
  }

  function Height(e: Extent): int {
    e.maxY - e.minY
  }

  /** One update of the box by a point: the least box covering both. */
  function IncludePoint(e: Extent, p: Point): (r: Extent)
    ensures Contains(r, p) && Encloses(r, e)
  {
    Extent(if p.x < e.minX then p.x else e.minX,
           if p.x > e.maxX then p.x else e.maxX,
           if p.y < e.minY then p.y else e.minY,
           if p.y > e.maxY then p.y else e.maxY)
  }

  /** The box after feeding it the points of `ps`, in order. */
  function Extend(e: Extent, ps: seq<Point>): Extent
    decreases |ps|
  {
    if ps == [] then e else IncludePoint(Extend(e, ps[..|ps| - 1]), ps[|ps| - 1])
  }

  lemma ExtendSnoc(e: Extent, ps: seq<Point>, p: Point)
    ensures Extend(e, ps + [p]) == IncludePoint(Extend(e, ps), p)
  {
    assert (ps + [p])[..|ps|] == ps;
  }

  /** Feeding two runs of points one after the other is feeding their concatenation. */
  lemma {:induction false} ExtendAppend(e: Extent, a: seq<Point>, b: seq<Point>)
    ensures Extend(e, a + b) == Extend(Extend(e, a), b)
    decreases |b|
  {
    if b == [] {
      assert a + b == a;
    } else {
      var b' := b[..|b| - 1];
      assert (a + b)[..|a + b| - 1] == a + b';
      assert (a + b)[|a + b| - 1] == b[|b| - 1];
      ExtendAppend(e, a, b');
    }
  }

  /** The fed box keeps everything the start box held and holds every fed point. */
  lemma {:induction false} ExtendCovers(e: Extent, ps: seq<Point>)
    ensures Encloses(Extend(e, ps), e)
    ensures forall i :: 0 <= i < |ps| ==> Contains(Extend(e, ps), ps[i])
  {
    if ps != [] {
      var init := ps[..|ps| - 1];
      ExtendCovers(e, init);
      forall i | 0 <= i < |ps|
        ensures Contains(Extend(e, ps), ps[i])
      {
        if i < |ps| - 1 {
          assert ps[i] == init[i];
        }
      }
    }
  }

  /** No smaller box would do: any box covering the start box and every fed point covers the result. */
  lemma {:induction false} ExtendIsLeast(e: Extent, ps: seq<Point>, c: Extent)
    requires Encloses(c, e)
    requires forall i :: 0 <= i < |ps| ==> Contains(c, ps[i])
    ensures Encloses(c, Extend(e, ps))
  {
    if ps != [] {
      var init := ps[..|ps| - 1];
      assert forall i :: 0 <= i < |init| ==> init[i] == ps[i];
      ExtendIsLeast(e, init, c);
      assert Contains(c, ps[|ps| - 1]);
    }
  }

  /** Feeding points already inside the box changes nothing. */
  lemma ExtendInside(e: Extent, ps: seq<Point>)
    requires forall i :: 0 <= i < |ps| ==> Contains(e, ps[i])
    ensures Extend(e, ps) == e
  {
    ExtendCovers(e, ps);
    ExtendIsLeast(e, ps, e);
  }

  /** The box moved outward by `amount` on each of its four sides. */
  function Pad(e: Extent, amount: int): (r: Extent)
    ensures Width(r) == Width(e) + 2 * amount && Height(r) == Height(e) + 2 * amount
    ensures amount >= 0 ==> Encloses(r, e)
    ensures forall p :: Contains(e, p) ==>
              r.minX + amount <= p.x <= r.maxX - amount && r.minY + amount <= p.y <= r.maxY - amount
  {
    Extent(e.minX - amount, e.maxX + amount, e.minY - amount, e.maxY + amount)
  }

  /** An SVG viewbox: top-left corner, width and height. */
  datatype ViewBox = ViewBox(x: int, y: int, width: int, height: int)

  /** The viewbox that shows exactly the extent `e`. */
  function ViewOf(e: Extent): (v: ViewBox)
    ensures v.x == e.minX && v.x + v.width == e.maxX
    ensures v.y == e.minY && v.y + v.height == e.maxY
  {
    ViewBox(e.minX, e.minY, e.maxX - e.minX, e.maxY - e.minY)
  }

  /** The four extents that the program keeps as mutable state while it draws. */
  class BoundingBox {
    var minX: int
    var maxX: int
    var minY: int
    var maxY: int

    function Value(): Extent
      reads this
    {
      Extent(minX, maxX, minY, maxY)
    }

    constructor (start: Extent)
      ensures Value() == start
    {
      minX, maxX, minY, maxY := start.minX, start.maxX, start.minY, start.maxY;
    }

    /** Widens the box just enough to hold `p`. */
    method Include(p: Point)
      modifies this
      ensures Value() == IncludePoint(old(Value()), p)
      ensures Contains(Value(), p) && Encloses(Value(), old(Value()))
    {
      maxX := if p.x > maxX then p.x else maxX;
      minX := if p.x < minX then p.x else minX;
      maxY := if p.y > maxY then p.y else maxY;
      minY := if p.y < minY then p.y else minY;
    }

    /** Moves every side of the box outward by `amount`, in place. */
    method Grow(amount: int)
      modifies this
      ensures Value() == Pad(old(Value()), amount)
    {
      minX := minX - amount;
      minY := minY - amount;
      maxX := maxX + amount;
      maxY := maxY + amount;
    }
  }
}
