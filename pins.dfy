/** Pin layout by direction code, and pin electrical-type names. */
module Pins {
  import opened Wrappers
  import opened Geometry
  import opened Symbols

  /** Distance from the pin's connection point to its electrical-type label. */
  const TypeLabelGap := 10

  /**
    Everything the renderer places for one pin, in the pin's own frame (before
    its group rotation): connection point, far end, midpoint, the anchors of the
    electrical-type label and of the pin name, the text anchor side, the group
    rotation, and the sign that keeps labels upright.
   */
  datatype PinGeometry = PinGeometry(start: Point, stop: Point, mid: RealPoint,
                                     typeLabelAt: Point, nameLabelAt: Point,
                                     anchor: Anchor, rotation: Rotation, mirror: int)

  /** Which end of a text sits on its anchor point. */
  datatype Anchor = Start | Middle | End

  predicate KnownDirection(d: string) {
    d == "R" || d == "L" || d == "D" || d == "U"
  }

  /** `p` moved `n` units in display direction `d` (y grows downwards). */
  function Toward(p: Point, d: string, n: int): Point
    requires KnownDirection(d)
  {
    if d == "R" then Point(p.x + n, p.y)
    else if d == "L" then Point(p.x - n, p.y)
    else if d == "D" then Point(p.x, p.y + n)
    else Point(p.x, p.y - n)
  }

  /**
    The layout of a pin for the component's name offset `nameOffset`. A direction
    other than R, L, D and U leaves the layout undefined (the source fails on it):
    that is `None` here. D and U pins are laid out like R pins and turned by
    their group's rotation about the connection point.
   */
  function PinGeometryOf(pin: Pin, nameOffset: int): (r: Option<PinGeometry>)
    ensures r.Some? <==> KnownDirection(pin.direction)
    ensures r.Some? ==> r.value.start == Flip(pin.posX, pin.posY)
    ensures r.Some? ==> r.value.stop.y == r.value.start.y &&
                        r.value.mid == RealPoint((r.value.start.x + r.value.stop.x) as real / 2.0,
                                                 r.value.start.y as real)
    ensures r.Some? ==>
              r.value.stop ==
              Point(r.value.start.x + (if pin.direction == "L" then -pin.length else pin.length), r.value.start.y)
    ensures r.Some? ==>
              r.value.rotation ==
              (if pin.direction == "D" then RotateAbout(90, r.value.start)
               else if pin.direction == "U" then RotateAbout(270, r.value.start)
               else Rotate(0))
    ensures r.Some? ==> QuarterTurn(r.value.rotation)
    ensures r.Some? ==> (r.value.mirror == -1 <==> pin.direction == "U") &&
                        (r.value.mirror == 1 <==> pin.direction != "U")
    ensures r.Some? ==> r.value.anchor == if pin.direction == "L" then Start else End
  {
    var x, y, l := pin.posX, -pin.posY, pin.length;
    var start := Point(x, y);
    var right := Point(x + l, y);
    var rightMid := RealPoint(x as real + l as real / 2.0, y as real);
    var rightName := Point(x + l + nameOffset, y);
    if pin.direction == "R" then
      Some(PinGeometry(start, right, rightMid, Point(x - TypeLabelGap, y), rightName,
                       End, Rotate(0), 1))
    else if pin.direction == "L" then
      Some(PinGeometry(start, Point(x - l, y), RealPoint(x as real - l as real / 2.0, y as real),
                       Point(x + TypeLabelGap, y), Point(x - l - nameOffset, y),
                       Start, Rotate(0), 1))
    else if pin.direction == "D" then
      Some(PinGeometry(start, right, rightMid, Point(x + TypeLabelGap, y), rightName,
                       End, RotateAbout(90, start), 1))
    else if pin.direction == "U" then
      Some(PinGeometry(start, right, rightMid, Point(x - TypeLabelGap, y), rightName,
                       End, RotateAbout(270, start), -1))
    else
      None
  }

  /**
    Where the pin's parts appear once its group is drawn: the connection point
    stays put, the leg runs `length` units in the pin's direction, the name
    anchor sits `nameOffset` beyond the leg's end, and the type label sits 10
    units behind the connection point (on the leg's side for D pins).
   */
  lemma PinLayout(pin: Pin, nameOffset: int)
    requires KnownDirection(pin.direction)
    ensures var g := PinGeometryOf(pin, nameOffset).value;
            var d := pin.direction;
            Apply(g.rotation, g.start) == g.start &&
            Apply(g.rotation, g.stop) == Toward(g.start, d, pin.length) &&
            Apply(g.rotation, g.nameLabelAt) == Toward(g.start, d, pin.length + nameOffset) &&
            Apply(g.rotation, g.typeLabelAt) == Toward(g.start, d, if d == "D" then TypeLabelGap else -TypeLabelGap)
  {
  }

  /**
    The label shown for a pin's electrical type: the four common codes are
    spelled out, any other code is shown as it is.
   */
  function ElectricalTypeName(code: string): (name: string)
    ensures code == "P" ==> name == "Passive"
    ensures code == "O" ==> name == "Output"
    ensures code == "I" ==> name == "Input"
    ensures code == "W" ==> name == "PowerInput"
    ensures name != code <==> code in {"P", "O", "I", "W"}
  {
    if code == "P" then "Passive"
    else if code == "O" then "Output"
    else if code == "I" then "Input"
    else if code == "W" then "PowerInput"
    else code
  }
}
