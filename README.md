# Symbol rendering of `draw_symbol.py`, modelled in Dafny

This project models the rendering core of the KiCad library utility
`schlib/draw_symbol.py`. The utility turns one schematic symbol into an SVG
drawing, one component at a time. For each component it:

- walks the component's rectangles, circles, polylines, pins and texts, in that order;
- skips primitives that belong to another unit of a multi-unit symbol;
- flips the y axis (library y points up, SVG y points down);
- turns every kept primitive into a shape record, with each pin as a rotated group;
- feeds some of the shapes' points into a running bounding box;
- pads that box by 250 on every side and uses it as the viewbox.

Modules:

- `Geometry` (`geometry.dfy`): display points, the y flip, the polyline point list (`Points`), quarter-turn rotations.
- `Bounds` (`bounds.dfy`): the box as a value (`Extent`, `IncludePoint`, `Extend`, `Pad`, `ViewOf`) and as the mutable four-field object the program updates (`BoundingBox`).
- `Style` (`style.dfy`): fill-code resolution and stroke width.
- `Symbols` (`symbols.dfy`): the parsed component record and the unit filters.
- `Pins` (`pins.dfy`): pin layout by direction code, and electrical-type names.
- `Render` (`render.dfy`): the shape records, one drawing method per primitive list, the render step `RenderComponent`, and lemmas about what it draws and how it frames the drawing.
- `Wrappers` (`wrappers.dfy`): `Option` and `Result`.

Each drawing method is proved against a specification function. `Collect`
concatenates what each primitive contributes. `BodyShapes` gives the shapes
drawn and `Feed` gives the points fed to the box. `RenderedExtent` gives the
box after one component. The lemmas in `Render` are stated over these functions.

The box's starting state is a parameter of the render step. In the program the
box is global: it starts at (0,0,0,0) (line 41) and is never reset between
components. So one component's padded box is the next component's starting
box. `CarriedExtent` folds the render step over a sequence of components that
share the box. This holds as long as every drawn pin of those components has a
known direction. On the first pin that does not, the program stops, and
`RenderComponent` returns its error instead.

## The code as written

The model follows the code in these places, where a reader might expect something else:

- **Stroke width.** It is always 8. The membership test at line 57 looks up the integer key `0`, which a record keyed by field names never has, so the record's thickness is never read.
- **Which points feed the box.** Only rectangle start corners, polyline points and pin ends feed the box. Circles and texts never do.
- **Rectangles.** Only the start corner is fed. A lone rectangle from (-100,100) to (100,-100) therefore gives the viewbox (-350,-350,600,600), not a 700 by 700 box centred on it (`LoneRectangle`).
- **Vertical pins.** A D or U pin feeds its unrotated far end (x+l, y). Its drawn end is (x, y±l), so a long vertical pin can reach outside the viewbox (`VerticalPinLeavesView`).
- **Arcs.** There is no radius-expanded inclusion and no arc rendering of any kind.
- **Carried box.** The box is not reset per component, so padding compounds (`CarriedGrowth`, `RenderAgainPadsAgain`).
- **Pin name nudge.** With a zero text offset, the centred pin name is nudged by half the *name* size.
- **Unit filters.** Texts are filtered by comparing the unit *string* with `1`. Other primitives are filtered with `int(unit) > 1`, so unit 0 and negative units are drawn.
- **Unknown pin direction.** It leaves locals unbound, and the source fails. Here that is `Err(UnknownPinDirection(index, code))`. The box keeps what the earlier primitives fed.

## Model

| member | source | states |
|---|---|---|
| `Geometry.Points` | schlib/draw_symbol.py:111-121 | the point list has `|xs|/2` points, point i is `(xs[2i], -xs[2i+1])`, a trailing unpaired value is dropped; it equals `FlippedPoints(xs)` |
| `Geometry.FlippedPointsAt` | schlib/draw_symbol.py:111-121 | the specification `FlippedPoints` has length `|xs|/2` and point i is the flipped pair (xs[2i], xs[2i+1]) |
| `Bounds.IncludePoint` | schlib/draw_symbol.py:123-128 | one update holds the new point and everything the old box held |
| `Bounds.BoundingBox.constructor` | schlib/draw_symbol.py:41 | the box object starts from the given extents (the program's are all zero) |
| `Bounds.BoundingBox.Include` | schlib/draw_symbol.py:123-128 | in place: the four fields become the old box widened just enough to hold `p`; min never rises, max never falls |
| `Bounds.ExtendCovers` | schlib/draw_symbol.py:123-128 | after feeding a run of points the box encloses the start box and holds every fed point |
| `Bounds.ExtendIsLeast` | schlib/draw_symbol.py:123-128 | any box enclosing the start box and holding every fed point encloses the fed box (it is the least such box) |
| `Bounds.ExtendAppend` | schlib/draw_symbol.py:123-128 | feeding two runs one after the other equals feeding their concatenation |
| `Bounds.Pad` | schlib/draw_symbol.py:235-238 | padding adds twice the amount to width and height, encloses the old box, and leaves every old point `amount` inside each side |
| `Bounds.BoundingBox.Grow` | schlib/draw_symbol.py:235-238 | in place: the fields become the old box padded by `amount` |
| `Bounds.ViewOf` | schlib/draw_symbol.py:241 | the viewbox's top-left corner is the box's minimum and corner plus size is its maximum |
| `Style.FillStyle` | schlib/draw_symbol.py:44-53 | `F` gives (`#840000`, 1), `f` gives (`#FFFFC0`, 1), any other code gives (`none`, 0) |
| `Style.FillPaintedIff` | schlib/draw_symbol.py:44-53 | opacity is 1 exactly for the two fill codes, and 0 exactly when the fill is `none` |
| `Style.StrokeWidth` | schlib/draw_symbol.py:55-61 | the width is always 8 and never 0, whatever the record's thickness |
| `Pins.PinGeometryOf` | schlib/draw_symbol.py:63-98 | defined exactly for R, L, D, U; start is `(posx, -posy)`; the unrotated far end is `(x-length, y)` for L and `(x+length, y)` otherwise; the group rotation is none for R and L, 90° about the start for D and 270° about the start for U; mid is the exact midpoint of start and far end; mirror is -1 exactly for U; anchor is `start` exactly for L |
| `Pins.PinLayout` | schlib/draw_symbol.py:63-98 | once rotated, the leg runs `length` in the pin's direction, the name anchor sits `offset` past its end, and the type label sits 10 behind the connection point (on the leg side for D) |
| `Pins.ElectricalTypeName` | schlib/draw_symbol.py:100-109 | P, O, I, W become Passive, Output, Input, PowerInput; the label differs from the code exactly for those four |
| `Render.RectShapeOf` | schlib/draw_symbol.py:164-172 | a rectangle is placed at its flipped start corner, its flipped end corner is insert plus size, and its stroke is 8 |
| `Render.DrawRects` | schlib/draw_symbol.py:161-172 | the shapes are those of the kept rectangles, and the box is fed their start corners in order |
| `Render.DrawCircles` | schlib/draw_symbol.py:174-181 | the shapes are those of the kept circles; the box is untouched |
| `Render.IncludeAll` | schlib/draw_symbol.py:191-192 | the box is fed every point of the list, in order |
| `Render.DrawPolylines` | schlib/draw_symbol.py:183-194 | the shapes are those of the kept polylines, and the box is fed all their points in order |
| `Render.DrawPin` | schlib/draw_symbol.py:206-221 | the box is fed the pin's far end then its start; the group holds marker, leg, type label, then the name and number when switched on |
| `Render.DrawPins` | schlib/draw_symbol.py:196-221 | succeeds exactly when every kept pin has a known direction; otherwise it reports the first bad kept pin, with exactly the pins before it drawn and fed to the box |
| `Render.DrawTexts` | schlib/draw_symbol.py:223-227 | the shapes are those of the texts whose unit is the string `1`; the box is untouched |
| `Render.DrawOutlines` | schlib/draw_symbol.py:161-194 | rectangles, circles and polylines in order, with the box fed the rectangle corners then the polyline points |
| `Render.RenderComponent` | schlib/draw_symbol.py:154-241 | on success, the box is the start box fed `Feed`, then padded; shapes are the body then the optional title (placed from the unpadded box); the viewbox is the padded box. On an unknown pin direction, it fails with that pin's index and code |
| `Render.FeedIsFedBy` | schlib/draw_symbol.py:161-227 | a point is fed to the box exactly when it is a kept rectangle's start corner, a kept polyline's point, or a kept pin's start or unrotated far end |
| `Render.FeedIgnoresCirclesAndTexts` | schlib/draw_symbol.py:174-227 | changing the circles or texts never changes what is fed to the box |
| `Render.FedPointsFramed` | schlib/draw_symbol.py:235-241 | the final box lies 250 beyond every fed point and beyond the start box, on every side |
| `Render.RenderedEnclosesPadded` | schlib/draw_symbol.py:235-238 | one component's step adds at least 500 to the box's width and height |
| `Render.RenderedExtentLeast` | schlib/draw_symbol.py:161-241 | any box covering the start box and the fed points covers the final box once padded by 250 |
| `Render.TitleInsideView` | schlib/draw_symbol.py:230-232 | the title's y is the unpadded max y plus 200, which is 50 above the padded box's bottom edge and inside it |
| `Render.DropFilteredRect` | schlib/draw_symbol.py:162-163 | removing a rectangle of unit above 1 changes neither the shapes nor the fed points |
| `Render.DropFilteredCircle` | schlib/draw_symbol.py:175-176 | removing a circle of unit above 1 changes neither the shapes nor the fed points |
| `Render.DropFilteredPolyline` | schlib/draw_symbol.py:184-185 | removing a polyline of unit above 1 changes neither the shapes nor the fed points |
| `Render.DropFilteredPin` | schlib/draw_symbol.py:197-198 | removing a pin of unit above 1 changes neither the shapes, nor the fed points, nor whether the step fails |
| `Render.DropFilteredText` | schlib/draw_symbol.py:224-225 | removing a text whose unit is not the string `1` changes neither the shapes nor the fed points |
| `Render.CentredLabelsApart` | schlib/draw_symbol.py:214-221 | with zero text offset, the centred name and number are nudged to opposite sides of the leg |
| `Render.CarriedGrowth` | schlib/draw_symbol.py:235-238 | over components sharing the box, the box only grows, by at least 500 in width and height per component |
| `Render.RenderAgainPadsAgain` | schlib/draw_symbol.py:235-238 | rendering the same component again from its own padded box pads that box by another 250 on every side |
| `Render.LoneRectangle` | schlib/draw_symbol.py:161-172 | a lone solid rectangle (-100,100)-(100,-100) draws at (-100,-100) with size 200 by 200 and stroke 8; its viewbox is (-350,-350,600,600) |
| `Render.VerticalPinLeavesView` | schlib/draw_symbol.py:200-207 | a D pin of length 300 at the origin is drawn reaching (0,300), which lies outside its own viewbox |

## Left out

- Command-line parsing, library-file globbing and iteration, and component selection by name or regular expression (lines 20-39, 130-152). This is I/O glue and a thin wrapper over the regex library.
- The library-file reader and `printer`. They are modules not shown here. The model takes the parsed record as input.
- Integer parsing of record fields with `int(...)`. Fields the source converts are integers in the model, and a malformed field (which raises in the source) is not modelled. Fields the source passes on unconverted keep their text: circle radius, text size and text unit.
- `svgwrite` itself: document construction, `fit(scale='slice')`, serialisation and saving. Shapes are plain records in a sequence, and the viewbox is four integers.
- The `rsvg-convert` call (lines 244-245). It is an external process.
- Font family, stroke colour, line join and cap, dominant baseline and the bold title weight. These are styling strings with no bearing on geometry.
- The loop over a library's components is not a method. The shared box across components is modelled by `CarriedExtent` over box values.
- `Geometry.Apply` handles quarter-turn rotations only. The program only uses rotations of 0, 90 and 270 degrees.
- Python's `/` makes floating-point values for the pin midpoints and the label baseline shifts (lines 71, 78, 85, 92, 216, 221). The model uses exact reals. The two agree whenever the coordinates and sizes are small enough for a double to hold their halves exactly, as real symbol coordinates are.
