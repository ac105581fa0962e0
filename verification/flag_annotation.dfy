/**
 The earlier, single-function annotation renderer: a straight line of a
 scalar distance, a label and a flag, with every position written against
 the anchor rather than against the line's end.
 */
module FlagAnnotation {
  import opened Canvas
  import Annotation

  /**
   What the legacy renderer lays out. `lineEnd` is `None` when the direction
   has no branch: the path is only moved to the anchor, and no segment is
   added. `marker` is the anchor marker, present when requested.
   */
  datatype Legacy = Legacy(lineEnd: Option<Point>, marker: Option<Annotation.Marker>, text: Point, flag: Point)

  /** The straight line's end point, when the direction adds one. */
  function LineEnd(anchor: Point, direction: Direction, distance: real): (e: Option<Point>)
    ensures e.Some? <==> direction in {Up, Down, Right}
    ensures e.Some? ==> e.value == Add(anchor, Scale(Annotation.Heading(direction), distance))
  {
    if direction == Up then Some(Point(anchor.x, anchor.y - distance))
    else if direction == Down then Some(Point(anchor.x, anchor.y + distance))
    else if direction == Right then Some(Point(anchor.x + distance, anchor.y))
    else None
  }

  /** The whole legacy layout: line end, anchor marker, text origin and flag position. */
  function DrawAnnotationWithFlag(anchor: Point, direction: Direction, distance: real,
                                  alignment: Alignment, m: TextMetrics, iconSize: Vec,
                                  showAnchor: bool, u: PtPerPx): (a: Legacy)
    ensures a.lineEnd == LineEnd(anchor, direction, distance)
    ensures a.marker.Some? <==> showAnchor
    ensures a.marker.Some? ==>
      a.marker.value.center == anchor && 0.0 < a.marker.value.dotRadius < a.marker.value.ringRadius
    // the text sits above the line's end, below it, or centred on its first line beside it
    ensures direction == Up ==> a.text.y + m.height == anchor.y - distance - Px(2.0, u)
    ensures direction == Down ==> a.text.y == anchor.y + distance + Px(2.0, u)
    ensures direction == Right ==> a.text.y + m.height / (m.lineCount as real) / 2.0 == anchor.y
    ensures direction == Left || direction == Other ==> a.text.y == 0.0
    ensures (direction == Up || direction == Down) && alignment == AlignRight ==>
      a.text.x + m.width == anchor.x + Px(2.0, u)
    ensures direction == Right ==> a.text.x - iconSize.dx - Px(3.0, u) == anchor.x + distance + Px(4.0, u)
    ensures direction != Right && !((direction == Up || direction == Down) && alignment == AlignRight) ==>
      a.text.x == anchor.x - Px(2.0, u)
    // the flag precedes the text by 3px and hangs 3px below its top
    ensures a.flag.x + iconSize.dx + Px(3.0, u) == a.text.x
    ensures a.flag.y == a.text.y + Px(3.0, u)
  {
    var hm := Px(-2.0, u);
    var vm := Px(2.0, u);
    var textX :=
      if (direction == Up || direction == Down) && alignment == AlignRight then
        anchor.x - m.width - hm
      else if direction == Right then
        anchor.x + distance + Px(3.0, u) + Px(6.0, u) + iconSize.dx + hm
      else
        anchor.x + hm;
    var textY :=
      if direction == Up then anchor.y - distance - m.height - vm
      else if direction == Down then anchor.y + distance + vm
      else if direction == Right then anchor.y - m.height / (m.lineCount as real) / 2.0
      else 0.0;
    Legacy(LineEnd(anchor, direction, distance), Annotation.AnchorMarker(anchor, showAnchor, u), Point(textX, textY),
           Point(textX - iconSize.dx - Px(3.0, u), textY + Px(3.0, u)))
  }

  // ---------------------------------------------------------------------------
  // Agreement with the current renderer
  // ---------------------------------------------------------------------------

  /**
   For the three directions the legacy renderer handles, it lays out the
   same line end, anchor marker, text origin and flag position as the
   current renderer given the same scalar distance and no curve deltas.
   */
  lemma AgreesWithCurrent(anchor: Point, direction: Direction, distance: real,
                          alignment: Alignment, m: TextMetrics, iconSize: Vec,
                          showAnchor: bool, u: PtPerPx)
    requires direction in {Up, Down, Right}
    ensures var legacy := DrawAnnotationWithFlag(anchor, direction, distance, alignment, m, iconSize, showAnchor, u);
      var current := Annotation.DrawAnnotationWithFlag(anchor, direction, Annotation.Scalar(distance), alignment,
                                                    m, iconSize, showAnchor, None, None, u);
      && legacy.lineEnd == Some(current.line.curve.end)
      && legacy.marker == current.line.marker
      && legacy.text == current.text
      && legacy.flag == current.flag
  {
    var current := Annotation.DrawAnnotationWithFlag(anchor, direction, Annotation.Scalar(distance), alignment,
                                                  m, iconSize, showAnchor, None, None, u);
    var end := current.line.curve.end;
    assert LineEnd(anchor, direction, distance) == Some(end);
    assert current.text == Annotation.DrawLabel(end, direction, alignment, m, Some(iconSize), u);
  }

  /**
   For "left" (and any unknown direction) the two renderers part ways: the
   legacy one draws no segment and measures the text from the anchor, the
   current one draws a segment to the left and measures from its end, so
   the text origins differ by the distance.
   */
  lemma LeftDiffersFromCurrent(anchor: Point, direction: Direction, distance: real,
                               alignment: Alignment, m: TextMetrics, iconSize: Vec,
                               showAnchor: bool, u: PtPerPx)
    requires direction == Left || direction == Other
    ensures var legacy := DrawAnnotationWithFlag(anchor, direction, distance, alignment, m, iconSize, showAnchor, u);
      var current := Annotation.DrawAnnotationWithFlag(anchor, direction, Annotation.Scalar(distance), alignment,
                                                    m, iconSize, showAnchor, None, None, u);
      && legacy.lineEnd == None
      && current.line.curve.end == Point(anchor.x - distance, anchor.y)
      && current.text.x == legacy.text.x - distance
      && current.text.y == legacy.text.y == 0.0
  {
  }

  /** For `Right`, the flag's left edge is 4px past the line end, whatever the icon width. */
  lemma FlagClearsLineEnd(anchor: Point, distance: real, alignment: Alignment, m: TextMetrics,
                          iconSize: Vec, showAnchor: bool, u: PtPerPx)
    ensures var a := DrawAnnotationWithFlag(anchor, Right, distance, alignment, m, iconSize, showAnchor, u);
      && a.flag.x == anchor.x + distance + Px(4.0, u)
      && a.flag.x > a.lineEnd.value.x
  {
  }
}
