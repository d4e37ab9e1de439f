/**
  The parsed symbol record handed over by the library reader: per-component
  settings and the lists of drawing primitives. Numeric fields the renderer
  converts with `int` are integers here; fields it passes on unconverted
  (circle radius, text size, text unit) stay strings.
 */
module Symbols {

  /** Component-wide settings. */
  datatype Definition = Definition(textOffset: int, drawPinName: string, drawPinNumber: string)

  datatype Rect = Rect(unit: int, startX: int, startY: int, endX: int, endY: int, thickness: int, fill: string)

  datatype Circle = Circle(unit: int, posX: int, posY: int, radius: string, thickness: int, fill: string)

  /** `points` is the flat list x0, y0, x1, y1, ... */
  datatype Polyline = Polyline(unit: int, points: seq<int>, thickness: int, fill: string)

  datatype Pin = Pin(unit: int, posX: int, posY: int, length: int, direction: string,
                     electricalType: string, name: string, number: string,
                     nameTextSize: int, numTextSize: int)

  datatype Text = Text(unit: string, posX: int, posY: int, text: string, textSize: string)

  datatype Symbol = Symbol(name: string, definition: Definition,
                           rects: seq<Rect>, circles: seq<Circle>, polylines: seq<Polyline>,
                           pins: seq<Pin>, texts: seq<Text>)

  /** Only the first (or common) unit of a multi-unit symbol is drawn. */
  predicate RectKept(r: Rect) { r.unit <= 1 }
  predicate CircleKept(c: Circle) { c.unit <= 1 }
  predicate PolylineKept(p: Polyline) { p.unit <= 1 }
  predicate PinKept(p: Pin) { p.unit <= 1 }
  /** Texts are compared as strings: only the unit written exactly `1` is drawn. */
  predicate TextKept(t: Text) { t.unit == "1" }
}
