/** Fill and stroke resolution for closed shapes. */
module Style {

  /** Outline colour of every drawn shape; also the solid fill colour. */
  const OutlineColor := "#840000"
  /** Fill colour of background-filled shapes. */
  const BackgroundColor := "#FFFFC0"
  const NoFill := "none"
  /** Stroke width used when a record gives none. */
  const DefaultStrokeWidth := 8

  /**
    Fill colour and fill opacity for a record's fill code: `F` is solid, `f` is
    the background colour, and any other code (including an empty one) is no fill.
   */
  function FillStyle(code: string): (r: (string, int))
    ensures code == "F" ==> r == (OutlineColor, 1)
    ensures code == "f" ==> r == (BackgroundColor, 1)
    ensures code != "F" && code != "f" ==> r == (NoFill, 0)
  {
    if code == "F" then (OutlineColor, 1)
    else if code == "f" then (BackgroundColor, 1)
    else (NoFill, 0)
  }

  /** A shape is painted exactly when its code is one of the two fill codes, and then fully opaque. */
  lemma FillPaintedIff(code: string)
    ensures FillStyle(code).1 == 1 <==> code == "F" || code == "f"
    ensures FillStyle(code).1 == 0 <==> FillStyle(code).0 == NoFill
  {
  }

  /**
    The stroke width of a record. The lookup that should read the record's
    thickness tests for the integer key 0, which a record keyed by field names
    never has, so the thickness is never read and the default always applies.
   */
  function StrokeWidth(thickness: int): (w: int)
    ensures w == DefaultStrokeWidth && w != 0
  {
    var hasKey := false;  // `0 in record` for a record whose keys are all strings
    var width := if hasKey then thickness else 0;
    if width == 0 then DefaultStrokeWidth else width
  }
}
