/**
 The current annotation renderer: a leader line from an anchor to a label
 point (a cubic Bezier that is straight unless curve deltas are given), a
 text label placed by direction and alignment, and optionally a flag icon
 placed just before the text.

 Only the numbers handed to the drawing surface are modelled: the curve's
 four points, the anchor marker's circles, the text origin and the flag
 position.
 */
module Annotation {
  import opened Canvas

  /** A leader-line offset: a length along the direction, or an explicit pair. */
  datatype Offset = Scalar(length: real) | Pair(dx: real, dy: real)

  /** The cubic Bezier path handed to the surface: start, two controls, end. */
  datatype Curve = Curve(start: Point, controlA: Point, controlB: Point, end: Point)

  /** The optional anchor marker: an outer stroked ring and an inner filled dot. */
  datatype Marker = Marker(center: Point, ringRadius: real, dotRadius: real)

  datatype Line = Line(curve: Curve, marker: Option<Marker>)

  /** What `draw_annotation` lays out. */
  datatype Annotated = Annotated(line: Line, text: Point)

  /** What `draw_annotation_with_flag` lays out: also the flag's top-left. */
  datatype Flagged = Flagged(line: Line, text: Point, flag: Point)

  /**
   The unit step of each direction, as the canvas sees it (y grows down).
   The source has no branch of its own for `Left`: it and every unknown
   string share the final `else`, which steps left.
   */
  function Heading(d: Direction): Vec {
    match d
    case Up => Vec(0.0, -1.0)
    case Down => Vec(0.0, 1.0)
    case Right => Vec(1.0, 0.0)
    case Left => Vec(-1.0, 0.0)
    case Other => Vec(-1.0, 0.0)
  }

  /** Turns an offset into an explicit displacement. */
  function ResolveOffset(direction: Direction, offset: Offset): (v: Vec)
    ensures offset.Pair? ==> v == Vec(offset.dx, offset.dy)
    ensures offset.Scalar? ==> v == Scale(Heading(direction), offset.length)
  {
    match offset
    case Pair(dx, dy) => Vec(dx, dy)
    case Scalar(o) =>
      if direction == Up then Vec(0.0, o * -1.0)
      else if direction == Down then Vec(0.0, o)
      else if direction == Right then Vec(o, 0.0)
      else Vec(o * -1.0, 0.0)
  }

  function Displace(p: Point, delta: Option<Vec>): Point {
    match delta
    case None => p
    case Some(v) => Add(p, v)
  }

  /** The anchor marker, when shown: a 3px ring and a 2px dot, both centred on the anchor. */
  function AnchorMarker(anchor: Point, show: bool, u: PtPerPx): (m: Option<Marker>)
    ensures m.Some? <==> show
    ensures m.Some? ==> m.value.center == anchor && 0.0 < m.value.dotRadius < m.value.ringRadius
    ensures m.Some? ==> m.value.ringRadius == Px(3.0, u) && m.value.dotRadius == Px(2.0, u)
  {
    if show then Some(Marker(anchor, Px(3.0, u), Px(2.0, u))) else None
  }

  /**
   The leader line: the path from the anchor to anchor + offset, with the
   control points bent away from the two ends by the optional curve deltas,
   and the anchor marker (ring of 3px, dot of 2px) when requested.
   */
  function DrawLine(anchor: Point, direction: Direction, offset: Offset, showAnchor: bool,
                    curveA: Option<Vec>, curveB: Option<Vec>, u: PtPerPx): (l: Line)
    ensures l.curve.start == anchor
    ensures l.curve.end == Add(anchor, ResolveOffset(direction, offset))
    ensures curveA.None? ==> l.curve.controlA == l.curve.start
    ensures curveA.Some? ==> Diff(l.curve.controlA, l.curve.start) == curveA.value
    ensures curveB.None? ==> l.curve.controlB == l.curve.end
    ensures curveB.Some? ==> Diff(l.curve.controlB, l.curve.end) == curveB.value
    ensures l.marker.Some? <==> showAnchor
    ensures l.marker.Some? ==>
      l.marker.value.center == anchor && 0.0 < l.marker.value.dotRadius < l.marker.value.ringRadius
    ensures l.marker == AnchorMarker(anchor, showAnchor, u)
  {
    var end := Add(anchor, ResolveOffset(direction, offset));
    var curve := Curve(anchor, Displace(anchor, curveA), Displace(end, curveB), end);
    Line(curve, AnchorMarker(anchor, showAnchor, u))
  }

  /**
   The origin (top-left) of the label text, given the label point (the
   line's end), the measured text, and the icon size when an icon precedes
   the text. The horizontal margin is -2px and the vertical margin 2px.
   */
  function DrawLabel(labelPoint: Point, direction: Direction, alignment: Alignment,
                     m: TextMetrics, iconSize: Option<Vec>, u: PtPerPx): (t: Point)
    // vertical rules: the text sits above, below, or is centred on its first line
    ensures direction == Up ==> t.y + m.height == labelPoint.y - Px(2.0, u)
    ensures direction == Down ==> t.y == labelPoint.y + Px(2.0, u)
    ensures direction == Right ==> t.y + m.height / (m.lineCount as real) / 2.0 == labelPoint.y
    ensures direction == Left || direction == Other ==> t.y == 0.0
    // horizontal rules
    ensures (direction == Up || direction == Down) && alignment == AlignRight ==>
      t.x + m.width == labelPoint.x + Px(2.0, u)
    ensures direction == Right && iconSize.None? ==> t.x == labelPoint.x + Px(4.0, u)
    ensures direction == Right && iconSize.Some? ==>
      t.x - iconSize.value.dx - Px(3.0, u) == labelPoint.x + Px(4.0, u)
    ensures direction != Right && !((direction == Up || direction == Down) && alignment == AlignRight) ==>
      t.x == labelPoint.x - Px(2.0, u)
  {
    var hm := Px(-2.0, u);
    var vm := Px(2.0, u);
    var x :=
      if (direction == Up || direction == Down) && alignment == AlignRight then
        labelPoint.x - m.width - hm
      else if direction == Right then
        var base := labelPoint.x + Px(6.0, u) + hm;
        if iconSize.Some? then base + iconSize.value.dx + Px(3.0, u) else base
      else
        labelPoint.x + hm;
    var y :=
      if direction == Up then labelPoint.y - m.height - vm
      else if direction == Down then labelPoint.y + vm
      else if direction == Right then labelPoint.y - m.height / (m.lineCount as real) / 2.0
      else 0.0;
    Point(x, y)
  }

  /** The flag's top-left: its right edge 3px before the text, its top 3px below the text's. */
  function FlagPosition(text: Point, iconSize: Vec, u: PtPerPx): (f: Point)
    ensures f.x + iconSize.dx + Px(3.0, u) == text.x
    ensures f.y == text.y + Px(3.0, u)
  {
    Point(text.x - iconSize.dx - Px(3.0, u), text.y + Px(3.0, u))
  }

  /** `draw_annotation`: a line, then a label with no icon at the line's end. */
  function DrawAnnotation(anchor: Point, direction: Direction, offset: Offset, alignment: Alignment,
                          m: TextMetrics, showAnchor: bool, curveA: Option<Vec>, curveB: Option<Vec>,
                          u: PtPerPx): (a: Annotated)
    ensures a.line.curve.start == anchor
    ensures a.line.curve.end == Add(anchor, ResolveOffset(direction, offset))
    ensures a.text == DrawLabel(a.line.curve.end, direction, alignment, m, None, u)
  {
    var line := DrawLine(anchor, direction, offset, showAnchor, curveA, curveB, u);
    Annotated(line, DrawLabel(line.curve.end, direction, alignment, m, None, u))
  }

  /**
   `draw_annotation_with_flag`: a line, a label that reserves room for the
   icon, and the icon placed relative to the label's returned origin.
   */
  function DrawAnnotationWithFlag(anchor: Point, direction: Direction, offset: Offset, alignment: Alignment,
                                  m: TextMetrics, iconSize: Vec, showAnchor: bool,
                                  curveA: Option<Vec>, curveB: Option<Vec>, u: PtPerPx): (a: Flagged)
    ensures a.line.curve.start == anchor
    ensures a.line.curve.end == Add(anchor, ResolveOffset(direction, offset))
    ensures a.text == DrawLabel(a.line.curve.end, direction, alignment, m, Some(iconSize), u)
    ensures a.flag.x + iconSize.dx + Px(3.0, u) == a.text.x
    ensures a.flag.y == a.text.y + Px(3.0, u)
  {
    var line := DrawLine(anchor, direction, offset, showAnchor, curveA, curveB, u);
    var text := DrawLabel(line.curve.end, direction, alignment, m, Some(iconSize), u);
    Flagged(line, text, FlagPosition(text, iconSize, u))
  }

  // ---------------------------------------------------------------------------
  // Properties
  // ---------------------------------------------------------------------------

  /** A scalar offset moves the end point along the direction's axis only. */
  lemma ScalarEndPoint(anchor: Point, direction: Direction, o: real, showAnchor: bool,
                       curveA: Option<Vec>, curveB: Option<Vec>, u: PtPerPx)
    ensures var e := DrawLine(anchor, direction, Scalar(o), showAnchor, curveA, curveB, u).curve.end;
      && (direction == Up ==> e == Point(anchor.x, anchor.y - o))
      && (direction == Down ==> e == Point(anchor.x, anchor.y + o))
      && (direction == Right ==> e == Point(anchor.x + o, anchor.y))
      && (direction == Left || direction == Other ==> e == Point(anchor.x - o, anchor.y))
  {
  }

  /** A pair offset is used as given, whatever the direction. */
  lemma PairIgnoresDirection(d1: Direction, d2: Direction, dx: real, dy: real)
    ensures ResolveOffset(d1, Pair(dx, dy)) == ResolveOffset(d2, Pair(dx, dy)) == Vec(dx, dy)
  {
  }

  /** "left" has no rule of its own: it lays out exactly like an unknown direction. */
  lemma LeftFallsThrough(anchor: Point, offset: Offset, alignment: Alignment, m: TextMetrics,
                         iconSize: Vec, showAnchor: bool, curveA: Option<Vec>, curveB: Option<Vec>,
                         u: PtPerPx)
    ensures DrawAnnotation(anchor, Left, offset, alignment, m, showAnchor, curveA, curveB, u)
         == DrawAnnotation(anchor, Other, offset, alignment, m, showAnchor, curveA, curveB, u)
    ensures DrawAnnotationWithFlag(anchor, Left, offset, alignment, m, iconSize, showAnchor, curveA, curveB, u)
         == DrawAnnotationWithFlag(anchor, Other, offset, alignment, m, iconSize, showAnchor, curveA, curveB, u)
  {
  }

  /**
   The icon changes the text origin only for `Right`, and there by exactly
   the icon width plus the 3px gap.
   */
  lemma IconShiftsOnlyRight(anchor: Point, direction: Direction, offset: Offset, alignment: Alignment,
                            m: TextMetrics, iconSize: Vec, showAnchor: bool,
                            curveA: Option<Vec>, curveB: Option<Vec>, u: PtPerPx)
    ensures var plain := DrawAnnotation(anchor, direction, offset, alignment, m, showAnchor, curveA, curveB, u);
      var flagged := DrawAnnotationWithFlag(anchor, direction, offset, alignment, m, iconSize, showAnchor,
                                            curveA, curveB, u);
      && flagged.line == plain.line
      && flagged.text.y == plain.text.y
      && (direction != Right ==> flagged.text.x == plain.text.x)
      && (direction == Right ==> flagged.text.x == plain.text.x + iconSize.dx + Px(3.0, u))
  {
  }

  /**
   For `Right`, the flag's left edge is 4px past the line end whatever the
   icon's width, so the icon never overlaps the line.
   */
  lemma FlagClearsLineEnd(anchor: Point, offset: Offset, alignment: Alignment, m: TextMetrics,
                          iconSize: Vec, showAnchor: bool, curveA: Option<Vec>, curveB: Option<Vec>,
                          u: PtPerPx)
    ensures var a := DrawAnnotationWithFlag(anchor, Right, offset, alignment, m, iconSize, showAnchor,
                                            curveA, curveB, u);
      && a.flag.x == a.line.curve.end.x + Px(4.0, u)
      && a.flag.x > a.line.curve.end.x
  {
  }

  /** The worked example: a downward annotation of 50pt with left-aligned text. */
  lemma DownwardExample(u: PtPerPx)
    ensures var a := DrawAnnotation(Point(100.0, 100.0), Down, Scalar(50.0), AlignLeft,
                                    TextMetrics(40.0, 12.0, 1), true, None, None, u);
      && a.line.curve.end == Point(100.0, 150.0)
      && a.text == Point(100.0 + Px(-2.0, u), 150.0 + Px(2.0, u))
  {
  }

  // ---------------------------------------------------------------------------
  // The Bezier path the surface strokes
  // ---------------------------------------------------------------------------

  /** The point of a cubic Bezier at parameter t, with Bernstein weights. */
  function BezierAt(c: Curve, t: real): Point {
    var s := 1.0 - t;
    var w0 := s * s * s;
    var w1 := 3.0 * s * s * t;
    var w2 := 3.0 * s * t * t;
    var w3 := t * t * t;
    Point(w0 * c.start.x + w1 * c.controlA.x + w2 * c.controlB.x + w3 * c.end.x,
          w0 * c.start.y + w1 * c.controlA.y + w2 * c.controlB.y + w3 * c.end.y)
  }

  /** Whatever the curve deltas, the path starts at the anchor and ends at the label point. */
  lemma CurveEndsAtLabelPoint(anchor: Point, direction: Direction, offset: Offset, showAnchor: bool,
                              curveA: Option<Vec>, curveB: Option<Vec>, u: PtPerPx)
    ensures var c := DrawLine(anchor, direction, offset, showAnchor, curveA, curveB, u).curve;
      BezierAt(c, 0.0) == anchor && BezierAt(c, 1.0) == Add(anchor, ResolveOffset(direction, offset))
  {
  }

  /** The weight that places a degenerate curve on its chord: 3t^2 - 2t^3, within [0, 1]. */
  function ChordWeight(t: real): (s: real)
    requires 0.0 <= t <= 1.0
    ensures 0.0 <= s <= 1.0
  {
    var s := 3.0 * t * t - 2.0 * t * t * t;
    assert s == t * t * (3.0 - 2.0 * t);
    assert 0.0 <= t * t;
    assert 0.0 <= t * t * (3.0 - 2.0 * t) by {
      NonNegativeProduct(t * t, 3.0 - 2.0 * t);
    }
    assert 1.0 - s == (1.0 - t) * (1.0 - t) * (1.0 + 2.0 * t);
    assert 0.0 <= (1.0 - t) * (1.0 - t) * (1.0 + 2.0 * t) by {
      NonNegativeProduct((1.0 - t) * (1.0 - t), 1.0 + 2.0 * t);
    }
    s
  }

  /**
   Without curve deltas the Bezier collapses onto the straight segment from
   the anchor to the label point: every point of it lies on that chord.
   */
  lemma StraightWithoutDeltas(anchor: Point, direction: Direction, offset: Offset, showAnchor: bool,
                              u: PtPerPx, t: real)
    requires 0.0 <= t <= 1.0
    ensures var c := DrawLine(anchor, direction, offset, showAnchor, None, None, u).curve;
      BezierAt(c, t) == Add(anchor, Scale(Diff(c.end, anchor), ChordWeight(t)))
  {
    var c := DrawLine(anchor, direction, offset, showAnchor, None, None, u).curve;
    var s := 1.0 - t;
    var w := ChordWeight(t);
    assert s * s * s + 3.0 * s * s * t == 1.0 - w;
    assert 3.0 * s * t * t + t * t * t == w;
    assert c.controlA == anchor && c.controlB == c.end;
  }
}
