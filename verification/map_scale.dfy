/**
 The numbers of the distance-scale legend: the bar's canvas length, its
 thickness and end radius, the cut slices, each label's box above the bar,
 the running bounding box of bar and labels, and the translation that moves
 the assembly into the canvas's top-right corner.
 */
module MapScale {
  import opened Canvas
  import ScaleBar

  /** The projection's ratio: `canvasUnits` canvas points per `geoUnits` geographic units. */
  datatype GeoScale = GeoScale(canvasUnits: real, geoUnits: real)

  /** A label to show: its distance along the bar, in geographic units, and its measured text size. */
  datatype ScaleLabel = ScaleLabel(geoDistance: real, width: real, height: real)

  /** Everything the legend hands to the drawing surface. */
  datatype ScaleLayout = ScaleLayout(
    width: real,          // bar length in canvas units
    radius: real,         // end-cap radius
    pill: Box,            // bounds of the pill
    slices: seq<Box>,     // the cut slices, left to right
    labels: seq<Box>,     // each label's logical box
    bbox: Box,            // bounds of pill and labels together
    translation: Vec)     // where the assembly is moved before drawing

  /** A geographic length in canvas units. */
  function ToCanvas(s: GeoScale, geo: real): (c: real)
    requires s.geoUnits != 0.0
    ensures c * s.geoUnits == s.canvasUnits * geo
  {
    s.canvasUnits / s.geoUnits * geo
  }

  /** The conversion is linear: distances along the bar add up. */
  lemma ToCanvasAdditive(s: GeoScale, a: real, b: real)
    requires s.geoUnits != 0.0
    ensures ToCanvas(s, a + b) == ToCanvas(s, a) + ToCanvas(s, b)
  {
    var k := s.canvasUnits / s.geoUnits;
    assert k * (a + b) == k * a + k * b;
  }

  const MarginPx: real := 50.0
  const LineThicknessPx: real := 2.0

  function LineThickness(u: PtPerPx): real {
    Px(LineThicknessPx, u)
  }

  /** The bar's thickness: four times the stroke width used on every map. */
  function ScaleThickness(u: PtPerPx): real {
    LineThickness(u) * 4.0
  }

  /**
   The end radius: two line thicknesses, so the pill built from it is
   exactly as tall as the bar's thickness, whatever its length.
   */
  function Radius(u: PtPerPx): (r: real)
    ensures r == 2.0 * LineThickness(u) && 0.0 < LineThickness(u) < r
    ensures forall w :: ScaleBar.PillBounds(w, r).Height() == ScaleThickness(u)
  {
    ScaleThickness(u) / 2.0
  }

  /**
   The legend's face (the pill inset by one line thickness) never collapses:
   it keeps a band one line thickness high on each side of the centre line.
   */
  lemma LegendFaceNonEmpty(w: real, u: PtPerPx)
    requires w >= ScaleThickness(u)
    ensures var r, lt := Radius(u), LineThickness(u);
      && r - lt == lt > 0.0
      && ScaleBar.InFace(w, r, lt, Point(r, lt))
      && ScaleBar.InFace(w, r, lt, Point(w - r, -lt))
  {
    var r, lt := Radius(u), LineThickness(u);
    ScaleBar.FaceHoldsBand(w, r, lt, Point(r, lt));
    ScaleBar.FaceHoldsBand(w, r, lt, Point(w - r, -lt));
  }

  /**
   The logical box of one label: centred on its tick, with its bottom edge
   a line thickness above the bar's top.
   */
  function LabelBox(s: GeoScale, l: ScaleLabel, u: PtPerPx): (b: Box)
    requires s.geoUnits != 0.0
    ensures (b.min.x + b.max.x) / 2.0 == ToCanvas(s, l.geoDistance)
    ensures b.max.y == -(Radius(u) + LineThickness(u))
    ensures b.Width() == l.width && b.Height() == l.height
  {
    var topLeft := Point(ToCanvas(s, l.geoDistance) - l.width / 2.0,
                         -(ScaleThickness(u) / 2.0 + LineThickness(u) + l.height));
    Box(topLeft, Point(topLeft.x + l.width, topLeft.y + l.height))
  }

  /**
   The running min/max over the bar's bounds and each label's box, in order.
   The result holds them all and each of its edges is one of theirs, so it
   is the least such box.
   */
  method RunningBounds(start: Box, boxes: seq<Box>) returns (b: Box)
    ensures Within(start, b)
    ensures forall j :: 0 <= j < |boxes| ==> Within(boxes[j], b)
    ensures b.min.x == start.min.x || exists j :: 0 <= j < |boxes| && b.min.x == boxes[j].min.x
    ensures b.min.y == start.min.y || exists j :: 0 <= j < |boxes| && b.min.y == boxes[j].min.y
    ensures b.max.x == start.max.x || exists j :: 0 <= j < |boxes| && b.max.x == boxes[j].max.x
    ensures b.max.y == start.max.y || exists j :: 0 <= j < |boxes| && b.max.y == boxes[j].max.y
  {
    b := start;
    for i := 0 to |boxes|
      invariant Within(start, b)
      invariant forall j :: 0 <= j < i ==> Within(boxes[j], b)
      invariant b.min.x == start.min.x || exists j :: 0 <= j < i && b.min.x == boxes[j].min.x
      invariant b.min.y == start.min.y || exists j :: 0 <= j < i && b.min.y == boxes[j].min.y
      invariant b.max.x == start.max.x || exists j :: 0 <= j < i && b.max.x == boxes[j].max.x
      invariant b.max.y == start.max.y || exists j :: 0 <= j < i && b.max.y == boxes[j].max.y
    {
      b := Union(b, boxes[i]);
    }
  }

  /**
   The translation as the source computes it: the top edge of the bounding
   box lands on the top margin, but the right edge lands at the right margin
   shifted by the box's left edge, since the box's width is subtracted where
   its right edge was meant.
   */
  function TranslationAsWritten(canvas: Box, bbox: Box, u: PtPerPx): (t: Vec)
    ensures bbox.min.y + t.dy == canvas.min.y + Px(MarginPx, u)
    ensures bbox.max.x + t.dx == canvas.max.x - Px(MarginPx, u) + bbox.min.x
  {
    Vec((canvas.max.x - Px(MarginPx, u)) - bbox.Width(), (canvas.min.y + Px(MarginPx, u)) - bbox.min.y)
  }

  /** The translation that puts the box's top-right corner on the margins. */
  function Translation(canvas: Box, bbox: Box, u: PtPerPx): (t: Vec)
    ensures bbox.max.x + t.dx == canvas.max.x - Px(MarginPx, u)
    ensures bbox.min.y + t.dy == canvas.min.y + Px(MarginPx, u)
  {
    Vec((canvas.max.x - Px(MarginPx, u)) - bbox.max.x, (canvas.min.y + Px(MarginPx, u)) - bbox.min.y)
  }

  /** The two agree exactly when the bounding box starts at x = 0. */
  lemma TranslationsAgreeWhenFlush(canvas: Box, bbox: Box, u: PtPerPx)
    ensures TranslationAsWritten(canvas, bbox, u) == Translation(canvas, bbox, u) <==> bbox.min.x == 0.0
  {
  }

  /**
   A legend whose "0" label is 10pt wide: the label overhangs the bar's
   start by 5pt, and the as-written translation leaves the right edge 5pt
   short of the margin.
   */
  lemma ZeroLabelMissesMargin()
    ensures var u: PtPerPx := 1.0;
      var s := GeoScale(1.0, 1.0);
      var canvas := Box(Point(0.0, 0.0), Point(1000.0, 800.0));
      var bbox := Union(ScaleBar.PillBounds(200.0, Radius(u)), LabelBox(s, ScaleLabel(0.0, 10.0, 12.0), u));
      && bbox.min.x == -5.0
      && bbox.max.x + TranslationAsWritten(canvas, bbox, u).dx == 945.0
      && bbox.max.x + Translation(canvas, bbox, u).dx == 950.0
  {
  }

  /** `draw_map_scale`, as the numbers it computes and hands to the surface. */
  method DrawMapScale(canvas: Box, s: GeoScale, widthInGeoUnits: real, segments: int,
                      labels: seq<ScaleLabel>, u: PtPerPx) returns (layout: ScaleLayout)
    requires s.geoUnits != 0.0
    ensures layout.width == ToCanvas(s, widthInGeoUnits)
    ensures layout.radius == Radius(u)
    ensures layout.pill == ScaleBar.PillBounds(layout.width, layout.radius)
    ensures |layout.slices| == ScaleBar.CutCount(segments)
    ensures forall i :: 0 <= i < |layout.slices| ==>
      segments >= 1 && layout.slices[i] == ScaleBar.SliceBox(2 * i + 1, layout.width, layout.radius, segments)
    ensures |layout.labels| == |labels|
    ensures forall i :: 0 <= i < |labels| ==> layout.labels[i] == LabelBox(s, labels[i], u)
    // the bounding box holds the bar and every label, and it is never smaller than the bar
    ensures Within(layout.pill, layout.bbox)
    ensures forall i :: 0 <= i < |labels| ==> Within(layout.labels[i], layout.bbox)
    // ... and each of its edges is an edge of the bar or of a label: it is their running min/max
    ensures layout.bbox.min.x == layout.pill.min.x ||
            exists j :: 0 <= j < |labels| && layout.bbox.min.x == layout.labels[j].min.x
    ensures layout.bbox.min.y == layout.pill.min.y ||
            exists j :: 0 <= j < |labels| && layout.bbox.min.y == layout.labels[j].min.y
    ensures layout.bbox.max.x == layout.pill.max.x ||
            exists j :: 0 <= j < |labels| && layout.bbox.max.x == layout.labels[j].max.x
    ensures layout.bbox.max.y == layout.pill.max.y ||
            exists j :: 0 <= j < |labels| && layout.bbox.max.y == layout.labels[j].max.y
    ensures layout.bbox.Width() >= layout.width
    ensures forall i :: 0 <= i < |labels| ==>
      layout.bbox.Height() >= 2.0 * layout.radius + LineThickness(u) + labels[i].height
    // the assembly is moved so the box's top edge sits on the top margin
    ensures layout.translation == TranslationAsWritten(canvas, layout.bbox, u)
    ensures layout.bbox.min.y + layout.translation.dy == canvas.min.y + Px(MarginPx, u)
    // ... while its right edge lands on the right margin shifted by the box's left edge
    ensures layout.bbox.max.x + layout.translation.dx == canvas.max.x - Px(MarginPx, u) + layout.bbox.min.x
  {
    var width := ToCanvas(s, widthInGeoUnits);
    var radius := Radius(u);
    var pill := ScaleBar.PillBounds(width, radius);
    var slices := ScaleBar.CutSlices(width, radius, segments);
    var placed := seq(|labels|, i requires 0 <= i < |labels| => LabelBox(s, labels[i], u));
    var bbox := RunningBounds(pill, placed);
    layout := ScaleLayout(width, radius, pill, slices, placed, bbox, TranslationAsWritten(canvas, bbox, u));
  }
}
