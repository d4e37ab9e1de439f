/**
  The per-component render step: walks a symbol's rectangles, circles,
  polylines, pins and texts in that order, skips those of other units, turns the
  rest into shape records, feeds some of their points into the running bounding
  box, then pads the box and uses it as the viewbox.
 */
module Render {
  import opened Wrappers
  import opened Geometry
  import opened Bounds
  import opened Style
  import opened Symbols
  import opened Pins

  const PinMarkerRadius := 10
  const PinMarkerStroke := 1
  const TypeLabelSize := 50
  const TitleSize := 50
  const TypeLabelColor := "#000084"
  const NameColor := "#008484"
  const TextColor := "#840000"
  const TitleColor := "#000000"

  /** A length the drawing carries either as a number or as the reader's text, unconverted. */
  datatype Measure = Num(n: int) | Verbatim(text: string)

  datatype Size = Size(width: int, height: int)

  /** Fill colour, fill opacity (when given) and stroke width of a shape. */
  datatype Paint = Paint(fill: string, fillOpacity: Option<int>, strokeWidth: int)

  datatype Shape =
    | RectShape(insert: Point, size: Size, paint: Paint)
    | CircleShape(center: Point, radius: Measure, paint: Paint)
    | PolylineShape(points: seq<Point>, paint: Paint)
    | LineShape(from: Point, to: Point, strokeWidth: int)
    | TextShape(content: string, at: RealPoint, anchor: Anchor, shift: Option<real>, fontSize: Measure, color: string)
    | Group(rotation: Rotation, children: seq<Shape>)

  datatype Drawing = Drawing(shapes: seq<Shape>, viewBox: ViewBox)

  /** The source stops with an error on a pin whose direction it does not know. */
  datatype RenderError = UnknownPinDirection(index: nat, code: string)

  // ---------------------------------------------------------------------------
  // What each primitive contributes: shapes drawn and points fed to the box

  /** The items that `f` makes from each element of `xs`, concatenated in order. */
  function Collect<C, T, U>(c: C, xs: seq<T>, f: (C, T) -> seq<U>): seq<U>
    decreases |xs|
  {
    if xs == [] then [] else Collect(c, xs[..|xs| - 1], f) + f(c, xs[|xs| - 1])
  }

  lemma CollectSnoc<C, T, U>(c: C, xs: seq<T>, i: nat, f: (C, T) -> seq<U>)
    requires i < |xs|
    ensures Collect(c, xs[..i + 1], f) == Collect(c, xs[..i], f) + f(c, xs[i])
  {
    assert xs[..i + 1][..i] == xs[..i];
  }

  lemma {:induction false} CollectAppend<C, T, U>(c: C, a: seq<T>, b: seq<T>, f: (C, T) -> seq<U>)
    ensures Collect(c, a + b, f) == Collect(c, a, f) + Collect(c, b, f)
    decreases |b|
  {
    if b == [] {
      assert a + b == a;
    } else {
      var b' := b[..|b| - 1];
      assert (a + b)[..|a + b| - 1] == a + b';
      assert (a + b)[|a + b| - 1] == b[|b| - 1];
      CollectAppend(c, a, b', f);
    }
  }

  /** An element that contributes nothing can be removed without changing the result. */
  lemma CollectSkip<C, T, U>(c: C, a: seq<T>, x: T, b: seq<T>, f: (C, T) -> seq<U>)
    requires f(c, x) == []
    ensures Collect(c, a + [x] + b, f) == Collect(c, a + b, f)
  {
    CollectAppend(c, a + [x], b, f);
    CollectAppend(c, a, [x], f);
    CollectAppend(c, a, b, f);
    assert [x][..0] == [];
  }

  /** Everything one element contributes appears in the whole result. */
  lemma {:induction false} CollectHas<C, T, U>(c: C, xs: seq<T>, i: nat, f: (C, T) -> seq<U>, y: U)
    requires i < |xs| && y in f(c, xs[i])
    ensures y in Collect(c, xs, f)
  {
    CollectAppend(c, xs[..i], xs[i..], f);
    CollectAppend(c, [xs[i]], xs[i + 1..], f);
    assert xs == xs[..i] + xs[i..];
    assert xs[i..] == [xs[i]] + xs[i + 1..];
    assert [xs[i]][..0] == [];
  }

  function PaintOf(fill: string, thickness: int): Paint {
    var (color, opacity) := FillStyle(fill);
    Paint(color, Some(opacity), StrokeWidth(thickness))
  }

  /** A rectangle is placed by its flipped start corner; its flipped end corner is the far corner. */
  function RectShapeOf(r: Rect): (s: Shape)
    ensures s.RectShape? && s.insert == Flip(r.startX, r.startY)
    ensures Flip(r.endX, r.endY) == Point(s.insert.x + s.size.width, s.insert.y + s.size.height)
    ensures s.paint.strokeWidth == DefaultStrokeWidth
  {
    RectShape(Point(r.startX, -r.startY), Size(r.endX - r.startX, r.startY - r.endY),
              PaintOf(r.fill, r.thickness))
  }

  function RectEmit(d: Definition, r: Rect): seq<Shape> {
    if RectKept(r) then [RectShapeOf(r)] else []
  }

  /** Only a rectangle's start corner is fed to the box. */
  function RectFeed(d: Definition, r: Rect): seq<Point> {
    if RectKept(r) then [Flip(r.startX, r.startY)] else []
  }

  /** Circles are drawn with the reader's radius text as it is, and never fed to the box. */
  function CircleEmit(d: Definition, c: Circle): seq<Shape> {
    if CircleKept(c) then [CircleShape(Flip(c.posX, c.posY), Verbatim(c.radius), PaintOf(c.fill, c.thickness))]
    else []
  }

  function PolylineEmit(d: Definition, p: Polyline): seq<Shape> {
    if PolylineKept(p) then [PolylineShape(FlippedPoints(p.points), PaintOf(p.fill, p.thickness))] else []
  }

  function PolylineFeed(d: Definition, p: Polyline): seq<Point> {
    if PolylineKept(p) then FlippedPoints(p.points) else []
  }

  function Opposite(anchor: Anchor): Anchor {
    if anchor == Start then End else Start
  }

  /** A component-wide switch: on exactly when its field reads `Y`. */
  predicate Enabled(flag: string) {
    flag == "Y"
  }

  /** A vertical label nudge of half the font size, up or down by `sign` (true division). */
  function Shift(sign: int, fontSize: int): real {
    (sign * fontSize) as real / 2.0
  }

  /** The name label: centred on the leg when the offset is zero, else past the leg's end. */
  function NameLabel(pin: Pin, g: PinGeometry, d: Definition): seq<Shape> {
    if !Enabled(d.drawPinName) then []
    else if d.textOffset == 0 then
      [TextShape(pin.name, g.mid, Middle, Some(Shift(g.mirror, pin.nameTextSize)),
                 Num(pin.nameTextSize), NameColor)]
    else
      [TextShape(pin.name, ToReal(g.nameLabelAt), Opposite(g.anchor), None, Num(pin.nameTextSize), NameColor)]
  }

  /** The number label: centred on the leg, on the other side of it from a centred name. */
  function NumberLabel(pin: Pin, g: PinGeometry, d: Definition): seq<Shape> {
    if !Enabled(d.drawPinNumber) then []
    else [TextShape(pin.number, g.mid, Middle, Some(Shift(-g.mirror, pin.numTextSize)),
                    Num(pin.numTextSize), TextColor)]
  }

  /** A pin is one rotated group: end marker, leg, type label, then the optional name and number. */
  function PinGroup(pin: Pin, g: PinGeometry, d: Definition): Shape {
    Group(g.rotation,
          [CircleShape(g.start, Num(PinMarkerRadius), Paint(NoFill, None, PinMarkerStroke)),
           LineShape(g.start, g.stop, StrokeWidth(0)),
           TextShape(ElectricalTypeName(pin.electricalType), ToReal(g.typeLabelAt), g.anchor, None,
                     Num(TypeLabelSize), TypeLabelColor)]
          + NameLabel(pin, g, d) + NumberLabel(pin, g, d))
  }

  function PinEmit(d: Definition, pin: Pin): seq<Shape> {
    if !PinKept(pin) then []
    else match PinGeometryOf(pin, d.textOffset)
      case None => []
      case Some(g) => [PinGroup(pin, g, d)]
  }

  /** A pin feeds its unrotated far end, then its connection point. */
  function PinFeed(d: Definition, pin: Pin): seq<Point> {
    if !PinKept(pin) then []
    else match PinGeometryOf(pin, d.textOffset)
      case None => []
      case Some(g) => [g.stop, g.start]
  }

  function TextEmit(d: Definition, t: Text): seq<Shape> {
    if TextKept(t) then [TextShape(t.text, ToReal(Flip(t.posX, t.posY)), Middle, None, Verbatim(t.textSize), TextColor)]
    else []
  }

  /** What one pin contributes, by whether it is drawn and whether its direction is known. */
  lemma PinContribution(d: Definition, pin: Pin)
    ensures !PinKept(pin) ==> PinEmit(d, pin) == [] && PinFeed(d, pin) == []
    ensures PinKept(pin) && PinGeometryOf(pin, d.textOffset).Some? ==>
              var g := PinGeometryOf(pin, d.textOffset).value;
              PinEmit(d, pin) == [PinGroup(pin, g, d)] && PinFeed(d, pin) == [g.stop, g.start]
  {
  }

  /** Every pin that is drawn has a known direction. */
  predicate PinsResolve(pins: seq<Pin>) {
    forall i :: 0 <= i < |pins| && PinKept(pins[i]) ==> KnownDirection(pins[i].direction)
  }

  lemma PinsResolveSnoc(pins: seq<Pin>, i: nat)
    requires i < |pins| && PinsResolve(pins[..i])
    requires PinKept(pins[i]) ==> KnownDirection(pins[i].direction)
    ensures PinsResolve(pins[..i + 1])
  {
    assert forall j :: 0 <= j < i ==> pins[..i + 1][j] == pins[..i][j];
  }

  /** The shapes of a component's primitives, in drawing order. */
  function BodyShapes(sym: Symbol): seq<Shape> {
    var d := sym.definition;
    Collect(d, sym.rects, RectEmit) + Collect(d, sym.circles, CircleEmit) +
    Collect(d, sym.polylines, PolylineEmit) + Collect(d, sym.pins, PinEmit) +
    Collect(d, sym.texts, TextEmit)
  }

  /** The points a component feeds to the box, in order. */
  function Feed(sym: Symbol): seq<Point> {
    var d := sym.definition;
    Collect(d, sym.rects, RectFeed) + Collect(d, sym.polylines, PolylineFeed) + Collect(d, sym.pins, PinFeed)
  }

  function TitleText(libName: string, name: string): string {
    libName + ":" + name
  }

  /** The points fed before the pin at index `k` is reached. */
  function FeedBefore(sym: Symbol, k: nat): seq<Point>
    requires k <= |sym.pins|
  {
    var d := sym.definition;
    Collect(d, sym.rects, RectFeed) + Collect(d, sym.polylines, PolylineFeed) + Collect(d, sym.pins[..k], PinFeed)
  }

  /** The optional `library:component` title, placed from the box before padding and not fed to it. */
  function TitleShapes(libName: string, sym: Symbol, withName: bool, maxY: int): seq<Shape> {
    if withName then
      [TextShape(TitleText(libName, sym.name), RealPoint(0.0, (maxY + Padding - TitleSize) as real), Middle,
                 None, Num(TitleSize), TitleColor)]
    else []
  }

  /**
    The box after rendering a component from the box `e`, when every drawn pin
    has a known direction (`RenderComponent` ties the two). On an unknown
    direction the program stops instead, and this value says nothing about it.
   */
  function RenderedExtent(e: Extent, sym: Symbol): Extent {
    Pad(Extend(e, Feed(sym)), Padding)
  }

  // ---------------------------------------------------------------------------
  // The render step, one method per primitive list

  method DrawRects(d: Definition, rects: seq<Rect>, box: BoundingBox) returns (shapes: seq<Shape>)
    modifies box
    ensures shapes == Collect(d, rects, RectEmit)
    ensures box.Value() == Extend(old(box.Value()), Collect(d, rects, RectFeed))
  {
    ghost var start := box.Value();
    ghost var fed: seq<Point> := [];
    shapes := [];
    for i := 0 to |rects|
      invariant shapes == Collect(d, rects[..i], RectEmit)
      invariant fed == Collect(d, rects[..i], RectFeed)
      invariant box.Value() == Extend(start, fed)
    {
      CollectSnoc(d, rects, i, RectEmit);
      CollectSnoc(d, rects, i, RectFeed);
      var r := rects[i];
      if r.unit <= 1 {
        var paint := PaintOf(r.fill, r.thickness);
        var size := Size(r.endX - r.startX, r.startY - r.endY);
        var insert := Point(r.startX, -r.startY);
        box.Include(insert);
        ExtendSnoc(start, fed, insert);
        fed := fed + [insert];
        shapes := shapes + [RectShape(insert, size, paint)];
      }
    }
    assert rects[..|rects|] == rects;
  }

  /** Circles leave the box alone. */
  method DrawCircles(d: Definition, circles: seq<Circle>) returns (shapes: seq<Shape>)
    ensures shapes == Collect(d, circles, CircleEmit)
  {
    shapes := [];
    for i := 0 to |circles|
      invariant shapes == Collect(d, circles[..i], CircleEmit)
    {
      CollectSnoc(d, circles, i, CircleEmit);
      var c := circles[i];
      if c.unit <= 1 {
        var paint := PaintOf(c.fill, c.thickness);
        var center := Point(c.posX, -c.posY);
        shapes := shapes + [CircleShape(center, Verbatim(c.radius), paint)];
      }
    }
    assert circles[..|circles|] == circles;
  }

  /** Feeds every point of a polyline to the box, in order. */
  method IncludeAll(box: BoundingBox, points: seq<Point>)
    modifies box
    ensures box.Value() == Extend(old(box.Value()), points)
  {
    ghost var start := box.Value();
    for j := 0 to |points|
      invariant box.Value() == Extend(start, points[..j])
    {
      box.Include(points[j]);
      ExtendSnoc(start, points[..j], points[j]);
      assert points[..j + 1] == points[..j] + [points[j]];
    }
    assert points[..|points|] == points;
  }

  method DrawPolylines(d: Definition, polylines: seq<Polyline>, box: BoundingBox) returns (shapes: seq<Shape>)
    modifies box
    ensures shapes == Collect(d, polylines, PolylineEmit)
    ensures box.Value() == Extend(old(box.Value()), Collect(d, polylines, PolylineFeed))
  {
    ghost var start := box.Value();
    ghost var fed: seq<Point> := [];
    shapes := [];
    for i := 0 to |polylines|
      invariant shapes == Collect(d, polylines[..i], PolylineEmit)
      invariant fed == Collect(d, polylines[..i], PolylineFeed)
      invariant box.Value() == Extend(start, fed)
    {
      CollectSnoc(d, polylines, i, PolylineEmit);
      CollectSnoc(d, polylines, i, PolylineFeed);
      var pl := polylines[i];
      if pl.unit <= 1 {
        var points := Points(pl.points);
        var paint := PaintOf(pl.fill, pl.thickness);
        IncludeAll(box, points);
        ExtendAppend(start, fed, points);
        fed := fed + points;
        shapes := shapes + [PolylineShape(points, paint)];
      }
    }
    assert polylines[..|polylines|] == polylines;
  }

  /** Feeds one pin's far end and connection point to the box, then builds its group label by label. */
  method DrawPin(pin: Pin, g: PinGeometry, d: Definition, box: BoundingBox) returns (group: Shape)
    modifies box
    ensures group == PinGroup(pin, g, d)
    ensures box.Value() == Extend(old(box.Value()), [g.stop, g.start])
  {
    ghost var start := box.Value();
    box.Include(g.stop);
    box.Include(g.start);
    ExtendSnoc(start, [], g.stop);
    ExtendSnoc(start, [g.stop], g.start);
    assert [g.stop] + [g.start] == [g.stop, g.start];
    var thickness := StrokeWidth(0);  // a pin record has no thickness field
    var etype := ElectricalTypeName(pin.electricalType);
    var base := [CircleShape(g.start, Num(PinMarkerRadius), Paint(NoFill, None, PinMarkerStroke)),
                 LineShape(g.start, g.stop, thickness),
                 TextShape(etype, ToReal(g.typeLabelAt), g.anchor, None, Num(TypeLabelSize), TypeLabelColor)];
    var name: seq<Shape> := [];
    if Enabled(d.drawPinName) {
      if d.textOffset == 0 {
        name := [TextShape(pin.name, g.mid, Middle, Some(Shift(g.mirror, pin.nameTextSize)),
                           Num(pin.nameTextSize), NameColor)];
      } else {
        var anchor := if g.anchor == Start then End else Start;
        name := [TextShape(pin.name, ToReal(g.nameLabelAt), anchor, None, Num(pin.nameTextSize), NameColor)];
      }
    }
    var number: seq<Shape> := [];
    if Enabled(d.drawPinNumber) {
      number := [TextShape(pin.number, g.mid, Middle, Some(Shift(-g.mirror, pin.numTextSize)),
                           Num(pin.numTextSize), TextColor)];
    }
    var children := base + name + number;
    group := Group(g.rotation, children);
  }

  /**
    Draws the pins in order. `failed` is the index of the first drawn pin whose
    direction is unknown; the pins before it have been drawn and fed.
   */
  method DrawPins(d: Definition, pins: seq<Pin>, box: BoundingBox) returns (shapes: seq<Shape>, failed: Option<nat>)
    modifies box
    ensures failed.None? <==> PinsResolve(pins)
    ensures failed.None? ==>
              shapes == Collect(d, pins, PinEmit) &&
              box.Value() == Extend(old(box.Value()), Collect(d, pins, PinFeed))
    ensures failed.Some? ==>
              var k := failed.value;
              k < |pins| && PinKept(pins[k]) && !KnownDirection(pins[k].direction) &&
              PinsResolve(pins[..k]) &&
              shapes == Collect(d, pins[..k], PinEmit) &&
              box.Value() == Extend(old(box.Value()), Collect(d, pins[..k], PinFeed))
  {
    ghost var start := box.Value();
    ghost var fed: seq<Point> := [];
    shapes := [];
    for i := 0 to |pins|
      invariant shapes == Collect(d, pins[..i], PinEmit)
      invariant fed == Collect(d, pins[..i], PinFeed)
      invariant box.Value() == Extend(start, fed)
      invariant PinsResolve(pins[..i])
    {
      CollectSnoc(d, pins, i, PinEmit);
      CollectSnoc(d, pins, i, PinFeed);
      var pin := pins[i];
      PinContribution(d, pin);
      if pin.unit <= 1 {
        var geometry := PinGeometryOf(pin, d.textOffset);
        if geometry.None? {
          return shapes, Some(i);
        }
        var g := geometry.value;
        var group := DrawPin(pin, g, d, box);
        ExtendAppend(start, fed, [g.stop, g.start]);
        fed := fed + [g.stop, g.start];
        shapes := shapes + [group];
      }
      PinsResolveSnoc(pins, i);
    }
    assert pins[..|pins|] == pins;
    failed := None;
  }

  /** Texts leave the box alone. */
  method DrawTexts(d: Definition, texts: seq<Text>) returns (shapes: seq<Shape>)
    ensures shapes == Collect(d, texts, TextEmit)
  {
    shapes := [];
    for i := 0 to |texts|
      invariant shapes == Collect(d, texts[..i], TextEmit)
    {
      CollectSnoc(d, texts, i, TextEmit);
      var t := texts[i];
      if TextKept(t) {
        var at := Point(t.posX, -t.posY);
        shapes := shapes + [TextShape(t.text, ToReal(at), Middle, None, Verbatim(t.textSize), TextColor)];
      }
    }
    assert texts[..|texts|] == texts;
  }

  /** Draws the rectangles, circles and polylines of a component, in that order. */
  method DrawOutlines(sym: Symbol, box: BoundingBox) returns (shapes: seq<Shape>)
    modifies box
    ensures var d := sym.definition;
            shapes == Collect(d, sym.rects, RectEmit) + Collect(d, sym.circles, CircleEmit) +
                      Collect(d, sym.polylines, PolylineEmit)
    ensures box.Value() == Extend(old(box.Value()), FeedBefore(sym, 0))
  {
    var d := sym.definition;
    ghost var start := box.Value();
    var rectShapes := DrawRects(d, sym.rects, box);
    var circleShapes := DrawCircles(d, sym.circles);
    var polylineShapes := DrawPolylines(d, sym.polylines, box);
    ExtendAppend(start, Collect(d, sym.rects, RectFeed), Collect(d, sym.polylines, PolylineFeed));
    assert sym.pins[..0] == [];
    ghost var outlineFeed := Collect(d, sym.rects, RectFeed) + Collect(d, sym.polylines, PolylineFeed);
    assert FeedBefore(sym, 0) == outlineFeed + [];
    assert outlineFeed + [] == outlineFeed;
    shapes := rectShapes + circleShapes + polylineShapes;
  }

  /**
    Renders one component, starting from whatever the box holds. On success the
    box ends padded and the drawing's viewbox shows it; on a pin with an unknown
    direction the step stops there, leaving the box as fed so far.
   */
  method RenderComponent(sym: Symbol, libName: string, withName: bool, box: BoundingBox)
    returns (result: Result<Drawing, RenderError>)
    modifies box
    ensures result.Ok? <==> PinsResolve(sym.pins)
    ensures result.Ok? ==>
              var fed := Extend(old(box.Value()), Feed(sym));
              box.Value() == Pad(fed, Padding) &&
              result.value.shapes == BodyShapes(sym) + TitleShapes(libName, sym, withName, fed.maxY) &&
              result.value.viewBox == ViewOf(box.Value())
    ensures result.Err? ==>
              var k := result.error.index;
              k < |sym.pins| && PinKept(sym.pins[k]) && !KnownDirection(sym.pins[k].direction) &&
              result.error.code == sym.pins[k].direction && PinsResolve(sym.pins[..k]) &&
              box.Value() == Extend(old(box.Value()), FeedBefore(sym, k))
  {
    var d := sym.definition;
    ghost var start := box.Value();
    var shapes := DrawOutlines(sym, box);
    ghost var outlineFeed := FeedBefore(sym, 0);
    assert outlineFeed == Collect(d, sym.rects, RectFeed) + Collect(d, sym.polylines, PolylineFeed);
    var pinShapes, failed := DrawPins(d, sym.pins, box);
    if failed.Some? {
      var k := failed.value;
      ExtendAppend(start, outlineFeed, Collect(d, sym.pins[..k], PinFeed));
      return Err(UnknownPinDirection(k, sym.pins[k].direction));
    }
    ExtendAppend(start, outlineFeed, Collect(d, sym.pins, PinFeed));
    var textShapes := DrawTexts(d, sym.texts);
    shapes := shapes + pinShapes + textShapes;
    if withName {
      shapes := shapes + [TextShape(TitleText(libName, sym.name), RealPoint(0.0, (box.maxY + Padding - TitleSize) as real),
                                    Middle, None, Num(TitleSize), TitleColor)];
    }
    box.Grow(Padding);
    result := Ok(Drawing(shapes, ViewBox(box.minX, box.minY, box.maxX - box.minX, box.maxY - box.minY)));
  }

  // ---------------------------------------------------------------------------
  // Properties of the render step

  /** Whatever is in the result was contributed by some element. */
  lemma {:induction false} CollectFrom<C, T, U>(c: C, xs: seq<T>, f: (C, T) -> seq<U>, y: U)
    requires y in Collect(c, xs, f)
    ensures exists i :: 0 <= i < |xs| && y in f(c, xs[i])
    decreases |xs|
  {
    var init := xs[..|xs| - 1];
    if y in Collect(c, init, f) {
      CollectFrom(c, init, f, y);
      var i :| 0 <= i < |init| && y in f(c, init[i]);
      assert init[i] == xs[i];
    } else {
      assert y in f(c, xs[|xs| - 1]);
    }
  }

  /** `p` is an end of `pin` as the box sees it: the connection point or the unrotated far end. */
  predicate PinEnd(pin: Pin, nameOffset: int, p: Point) {
    match PinGeometryOf(pin, nameOffset)
    case None => false
    case Some(g) => p == g.start || p == g.stop
  }

  /** The points the source feeds to the box: drawn rectangles' start corners, drawn polylines' points and drawn pins' ends. */
  predicate FedBy(sym: Symbol, p: Point) {
    (exists i :: 0 <= i < |sym.rects| && RectKept(sym.rects[i]) &&
                 p == Flip(sym.rects[i].startX, sym.rects[i].startY)) ||
    (exists i :: 0 <= i < |sym.polylines| && PolylineKept(sym.polylines[i]) &&
                 p in FlippedPoints(sym.polylines[i].points)) ||
    (exists i :: 0 <= i < |sym.pins| && PinKept(sym.pins[i]) && PinEnd(sym.pins[i], sym.definition.textOffset, p))
  }

  /** The box is fed exactly those points: nothing from circles, texts, other units or far rectangle corners. */
  lemma FeedIsFedBy(sym: Symbol, p: Point)
    ensures p in Feed(sym) <==> FedBy(sym, p)
  {
    var d := sym.definition;
    if p in Feed(sym) {
      if p in Collect(d, sym.rects, RectFeed) {
        CollectFrom(d, sym.rects, RectFeed, p);
      } else if p in Collect(d, sym.polylines, PolylineFeed) {
        CollectFrom(d, sym.polylines, PolylineFeed, p);
      } else {
        CollectFrom(d, sym.pins, PinFeed, p);
      }
    }
    if FedBy(sym, p) {
      if i :| 0 <= i < |sym.rects| && RectKept(sym.rects[i]) && p == Flip(sym.rects[i].startX, sym.rects[i].startY) {
        CollectHas(d, sym.rects, i, RectFeed, p);
      } else if i :| 0 <= i < |sym.polylines| && PolylineKept(sym.polylines[i]) && p in FlippedPoints(sym.polylines[i].points) {
        CollectHas(d, sym.polylines, i, PolylineFeed, p);
      } else {
        var i :| 0 <= i < |sym.pins| && PinKept(sym.pins[i]) && PinEnd(sym.pins[i], d.textOffset, p);
        CollectHas(d, sym.pins, i, PinFeed, p);
      }
    }
  }

  /** Circles and texts never reach the box. */
  lemma FeedIgnoresCirclesAndTexts(sym: Symbol, circles: seq<Circle>, texts: seq<Text>)
    ensures Feed(sym.(circles := circles, texts := texts)) == Feed(sym)
  {
  }

  /** After the step, the box reaches at least `Padding` beyond the box it started from, on every side. */
  lemma RenderedEnclosesPadded(e: Extent, sym: Symbol)
    ensures Encloses(RenderedExtent(e, sym), Pad(e, Padding))
    ensures Width(RenderedExtent(e, sym)) >= Width(e) + 2 * Padding
    ensures Height(RenderedExtent(e, sym)) >= Height(e) + 2 * Padding
  {
    ExtendCovers(e, Feed(sym));
  }

  /**
    After the step, the box reaches at least `Padding` beyond every fed point and
    beyond the box it started from, on every side.
   */
  lemma FedPointsFramed(e: Extent, sym: Symbol)
    ensures Encloses(RenderedExtent(e, sym), Pad(e, Padding))
    ensures forall p :: p in Feed(sym) ==>
              var r := RenderedExtent(e, sym);
              r.minX + Padding <= p.x <= r.maxX - Padding && r.minY + Padding <= p.y <= r.maxY - Padding
  {
    var fed := Feed(sym);
    ExtendCovers(e, fed);
    forall p | p in fed
      ensures Contains(Extend(e, fed), p)
    {
      var i :| 0 <= i < |fed| && fed[i] == p;
    }
  }

  /** And no further: a box that covers the start box and every fed point, padded, covers the result. */
  lemma RenderedExtentLeast(e: Extent, sym: Symbol, c: Extent)
    requires Encloses(c, e)
    requires forall p :: p in Feed(sym) ==> Contains(c, p)
    ensures Encloses(Pad(c, Padding), RenderedExtent(e, sym))
  {
    var fed := Feed(sym);
    assert forall i :: 0 <= i < |fed| ==> fed[i] in fed;
    ExtendIsLeast(e, fed, c);
  }

  /**
    The title anchor sits `TitleSize` above the padded box's bottom edge, inside
    the viewbox, whenever the starting box holds the origin (as the program's does).
   */
  lemma TitleInsideView(e: Extent, sym: Symbol)
    requires Contains(e, Point(0, 0))
    ensures var fed := Extend(e, Feed(sym));
            var r := RenderedExtent(e, sym);
            fed.maxY + Padding - TitleSize == r.maxY - TitleSize &&
            Contains(r, Point(0, fed.maxY + Padding - TitleSize))
  {
    ExtendCovers(e, Feed(sym));
  }

  /** Dropping a rectangle of another unit changes neither the shapes nor the box. */
  lemma DropFilteredRect(sym: Symbol, k: nat)
    requires k < |sym.rects| && !RectKept(sym.rects[k])
    ensures var s := sym.(rects := sym.rects[..k] + sym.rects[k + 1..]);
            BodyShapes(s) == BodyShapes(sym) && Feed(s) == Feed(sym)
  {
    var d := sym.definition;
    assert sym.rects == sym.rects[..k] + [sym.rects[k]] + sym.rects[k + 1..];
    CollectSkip(d, sym.rects[..k], sym.rects[k], sym.rects[k + 1..], RectEmit);
    CollectSkip(d, sym.rects[..k], sym.rects[k], sym.rects[k + 1..], RectFeed);
  }

  /** Dropping a circle of another unit changes neither the shapes nor the box. */
  lemma DropFilteredCircle(sym: Symbol, k: nat)
    requires k < |sym.circles| && !CircleKept(sym.circles[k])
    ensures var s := sym.(circles := sym.circles[..k] + sym.circles[k + 1..]);
            BodyShapes(s) == BodyShapes(sym) && Feed(s) == Feed(sym)
  {
    var d := sym.definition;
    assert sym.circles == sym.circles[..k] + [sym.circles[k]] + sym.circles[k + 1..];
    CollectSkip(d, sym.circles[..k], sym.circles[k], sym.circles[k + 1..], CircleEmit);
  }

  /** Dropping a polyline of another unit changes neither the shapes nor the box. */
  lemma DropFilteredPolyline(sym: Symbol, k: nat)
    requires k < |sym.polylines| && !PolylineKept(sym.polylines[k])
    ensures var s := sym.(polylines := sym.polylines[..k] + sym.polylines[k + 1..]);
            BodyShapes(s) == BodyShapes(sym) && Feed(s) == Feed(sym)
  {
    var d := sym.definition;
    assert sym.polylines == sym.polylines[..k] + [sym.polylines[k]] + sym.polylines[k + 1..];
    CollectSkip(d, sym.polylines[..k], sym.polylines[k], sym.polylines[k + 1..], PolylineEmit);
    CollectSkip(d, sym.polylines[..k], sym.polylines[k], sym.polylines[k + 1..], PolylineFeed);
  }

  /** Whether every drawn pin has a known direction does not depend on pins that are not drawn. */
  lemma DropFilteredPinResolves(pins: seq<Pin>, k: nat)
    requires k < |pins| && !PinKept(pins[k])
    ensures PinsResolve(pins[..k] + pins[k + 1..]) <==> PinsResolve(pins)
  {
    var rest := pins[..k] + pins[k + 1..];
    assert forall i :: 0 <= i < k ==> rest[i] == pins[i];
    assert forall i :: k <= i < |rest| ==> rest[i] == pins[i + 1];
    if PinsResolve(rest) {
      forall i | 0 <= i < |pins| && PinKept(pins[i])
        ensures KnownDirection(pins[i].direction)
      {
        if i > k {
          assert rest[i - 1] == pins[i];
        }
      }
    }
  }

  /** Dropping a pin of another unit changes neither the shapes, nor the box, nor whether the step fails. */
  lemma DropFilteredPin(sym: Symbol, k: nat)
    requires k < |sym.pins| && !PinKept(sym.pins[k])
    ensures var s := sym.(pins := sym.pins[..k] + sym.pins[k + 1..]);
            BodyShapes(s) == BodyShapes(sym) && Feed(s) == Feed(sym) &&
            (PinsResolve(s.pins) <==> PinsResolve(sym.pins))
  {
    var d := sym.definition;
    var pins := sym.pins;
    assert pins == pins[..k] + [pins[k]] + pins[k + 1..];
    CollectSkip(d, pins[..k], pins[k], pins[k + 1..], PinEmit);
    CollectSkip(d, pins[..k], pins[k], pins[k + 1..], PinFeed);
    DropFilteredPinResolves(pins, k);
  }

  /** Only texts whose unit is exactly the string `1` are drawn; dropping any other changes nothing. */
  lemma DropFilteredText(sym: Symbol, k: nat)
    requires k < |sym.texts| && sym.texts[k].unit != "1"
    ensures var s := sym.(texts := sym.texts[..k] + sym.texts[k + 1..]);
            BodyShapes(s) == BodyShapes(sym) && Feed(s) == Feed(sym)
  {
    var d := sym.definition;
    assert sym.texts == sym.texts[..k] + [sym.texts[k]] + sym.texts[k + 1..];
    CollectSkip(d, sym.texts[..k], sym.texts[k], sym.texts[k + 1..], TextEmit);
  }

  /** With a zero name offset the name and number labels are nudged to opposite sides of the leg. */
  lemma CentredLabelsApart(pin: Pin, g: PinGeometry, d: Definition)
    requires d.textOffset == 0 && Enabled(d.drawPinName) && Enabled(d.drawPinNumber)
    requires g.mirror == 1 || g.mirror == -1
    requires pin.nameTextSize > 0 && pin.numTextSize > 0
    ensures var name := NameLabel(pin, g, d)[0].shift.value;
            var number := NumberLabel(pin, g, d)[0].shift.value;
            (name > 0.0 && number < 0.0) || (name < 0.0 && number > 0.0)
  {
    if g.mirror == 1 {
      assert Shift(g.mirror, pin.nameTextSize) == pin.nameTextSize as real / 2.0;
      assert Shift(-g.mirror, pin.numTextSize) == -pin.numTextSize as real / 2.0;
    } else {
      assert Shift(g.mirror, pin.nameTextSize) == -pin.nameTextSize as real / 2.0;
      assert Shift(-g.mirror, pin.numTextSize) == pin.numTextSize as real / 2.0;
    }
  }

  // ---------------------------------------------------------------------------
  // The box is never reset between components

  /**
    The box after rendering `syms` one after the other, all sharing it, from `e`.
    It describes the program only while every component's drawn pins have known
    directions: on the first that does not, the program stops.
   */
  function CarriedExtent(e: Extent, syms: seq<Symbol>): Extent
    decreases |syms|
  {
    if syms == [] then e else CarriedExtent(RenderedExtent(e, syms[0]), syms[1..])
  }

  /** Padding compounds: every component adds at least twice the padding (500) to the shared box's width and height. */
  lemma {:induction false} CarriedGrowth(e: Extent, syms: seq<Symbol>)
    ensures Encloses(CarriedExtent(e, syms), e)
    ensures Width(CarriedExtent(e, syms)) >= Width(e) + 500 * |syms|
    ensures Height(CarriedExtent(e, syms)) >= Height(e) + 500 * |syms|
    decreases |syms|
  {
    if syms != [] {
      var next := RenderedExtent(e, syms[0]);
      RenderedEnclosesPadded(e, syms[0]);
      CarriedGrowth(next, syms[1..]);
      assert CarriedExtent(e, syms) == CarriedExtent(next, syms[1..]);
    }
  }

  /** Rendering the same component twice in a row pads the already padded box once more. */
  lemma RenderAgainPadsAgain(e: Extent, sym: Symbol)
    ensures RenderedExtent(RenderedExtent(e, sym), sym) == Pad(RenderedExtent(e, sym), Padding)
  {
    var r := RenderedExtent(e, sym);
    var fed := Feed(sym);
    FedPointsFramed(e, sym);
    assert forall i :: 0 <= i < |fed| ==> fed[i] in fed;
    ExtendInside(r, fed);
  }

  // ---------------------------------------------------------------------------
  // Worked cases

  /**
    A lone solid rectangle from (-100, 100) to (100, -100) is drawn at (-100, -100)
    with size 200 by 200 and stroke 8; only its start corner is fed to the box,
    so the viewbox is (-350, -350, 600, 600).
   */
  lemma LoneRectangle()
    ensures var sym := Symbol("R", Definition(0, "Y", "Y"), [Rect(1, -100, 100, 100, -100, 0, "F")], [], [], [], []);
            BodyShapes(sym) == [RectShape(Point(-100, -100), Size(200, 200), Paint("#840000", Some(1), 8))] &&
            ViewOf(RenderedExtent(Origin, sym)) == ViewBox(-350, -350, 600, 600)
  {
    var r := Rect(1, -100, 100, 100, -100, 0, "F");
    var sym := Symbol("R", Definition(0, "Y", "Y"), [r], [], [], [], []);
    var d := sym.definition;
    assert [r][..0] == [];
    assert Collect(d, [r], RectEmit) == RectEmit(d, r);
    assert Collect(d, [r], RectFeed) == [Point(-100, -100)];
    assert Feed(sym) == [Point(-100, -100)];
    assert Extend(Origin, [Point(-100, -100)]) == Extent(-100, 0, -100, 0);
  }

  /**
    A downward pin of length 300 at the origin is drawn reaching (0, 300), but
    the box is fed its unrotated far end (300, 0), so the drawn end falls
    outside the viewbox.
   */
  lemma VerticalPinLeavesView()
    ensures var pin := Pin(1, 0, 0, 300, "D", "P", "A", "1", 50, 50);
            var sym := Symbol("P", Definition(0, "Y", "Y"), [], [], [], [pin], []);
            var g := PinGeometryOf(pin, 0).value;
            Apply(g.rotation, g.stop) == Point(0, 300) &&
            !Contains(RenderedExtent(Origin, sym), Point(0, 300))
  {
    var pin := Pin(1, 0, 0, 300, "D", "P", "A", "1", 50, 50);
    var sym := Symbol("P", Definition(0, "Y", "Y"), [], [], [], [pin], []);
    var d := sym.definition;
    assert [pin][..0] == [];
    assert Collect(d, [pin], PinFeed) == [Point(300, 0), Point(0, 0)];
    assert Feed(sym) == [Point(300, 0), Point(0, 0)];
    assert [Point(300, 0), Point(0, 0)][..1] == [Point(300, 0)];
    assert [Point(300, 0)][..0] == [];
    assert Extend(Origin, [Point(300, 0), Point(0, 0)]) == Extent(0, 300, 0, 0);
  }
}
