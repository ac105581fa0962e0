# Map annotation and scale-bar layout, in Dafny

This project models the layout arithmetic of the `new_caledonia_maps`
renderer: where an annotation's leader line, text label and flag icon go
relative to an anchor point and a direction, and how the distance-scale
legend (a pill-shaped bar with alternate slices cut out, value labels above
it) is sized, bounded and pinned to the top-right corner of the canvas.

All coordinates are canvas points held as `real`; y grows downwards. The
renderer's pixel constants become `Px(n, u)`, where `u: PtPerPx` is the
positive number of points per pixel. Text metrics, icon sizes and the
projection's canvas-per-geographic ratio are inputs.

Modules, one per source file or concept:

- `Canvas` (`canvas.dfy`): points, displacements, boxes with union, the pixel
  unit, the `Direction` datatype (`Up | Down | Left | Right | Other`, the
  last standing for any unrecognised string), alignments and text metrics.
- `Annotation` (`annotation.dfy`): `annotation.py` — offset resolution,
  the Bezier leader line, the text origin, the flag position.
- `FlagAnnotation` (`flag_annotation.dfy`): the older `flag_annotation.py`,
  and its agreement with `Annotation` for the directions it handles.
- `ScaleBar` (`scale_bar.dfy`): the bar's shapes as point-membership
  predicates — pill, inset face, cut slices, ticks — and the numbers read
  back from them.
- `MapScale` (`map_scale.dfy`): `draw_map_scale` — bar length, thickness,
  label boxes, running bounding box, translation.

## Model

| member | source | states |
|---|---|---|
| `Canvas.ParseDirection` | new_caledonia_maps/annotation.py:36-43 | a direction string is `Up`, `Down`, `Left` or `Right` exactly when it equals "up", "down", "left" or "right"; every other string is `Other` |
| `Canvas.Union` | new_caledonia_maps/map_scale.py:105-108 | the running min/max of two boxes holds both, lies within every box that holds both, and each edge is an edge of one of them |
| `Annotation.ResolveOffset` | new_caledonia_maps/annotation.py:35-43 | a pair offset is used as given; a scalar offset `o` becomes `o` times the direction's unit step: up `(0,-o)`, down `(0,o)`, right `(o,0)`, left and unknown `(-o,0)` |
| `Annotation.ScalarEndPoint` | new_caledonia_maps/annotation.py:35-47 | with a scalar offset the line ends at `(x, y-o)`, `(x, y+o)`, `(x+o, y)` for up, down, right, and at `(x-o, y)` for left and unknown directions |
| `Annotation.PairIgnoresDirection` | new_caledonia_maps/annotation.py:35 | a pair offset resolves to itself whatever the direction |
| `Annotation.AnchorMarker` | new_caledonia_maps/annotation.py:76-93 | the marker exists exactly when requested, centred on the anchor, with a stroked ring of radius 3px and a filled dot of radius 2px, so the dot lies inside the ring |
| `Annotation.DrawLine` | new_caledonia_maps/annotation.py:33-95 | the path starts at the anchor and ends at anchor + resolved offset; control A is the anchor moved by `curve_control_a` (the anchor when absent), control B the end moved by `curve_control_b` (the end when absent); the marker exists exactly when requested, centred on the anchor, dot radius inside ring radius |
| `Annotation.CurveEndsAtLabelPoint` | new_caledonia_maps/annotation.py:49-67 | whatever the curve deltas, the stroked Bezier passes through the anchor at t = 0 and the returned end point at t = 1 |
| `Annotation.StraightWithoutDeltas` | new_caledonia_maps/annotation.py:49-67 | without curve deltas every point of the Bezier lies on the chord from anchor to end point, at fraction `3t^2 - 2t^3` in [0, 1] |
| `Annotation.ChordWeight` | new_caledonia_maps/annotation.py:49-67 | the fraction along the chord reached by a degenerate Bezier at t in [0, 1] lies in [0, 1] |
| `Annotation.DrawLabel` | new_caledonia_maps/annotation.py:119-149 | up: text bottom edge 2px above the label point; down: text top 2px below it; right: first line vertically centred on it; left and unknown: `text_y = 0`. Up/down right-aligned: text right edge 2px right of the point; right: text starts 4px past the point, or, with an icon, the icon's left edge 3px before the text starts 4px past the point, whatever the alignment; otherwise text starts 2px left of the point |
| `Annotation.FlagPosition` | new_caledonia_maps/annotation.py:217-220 | the flag's right edge sits 3px before the text's left edge and its top 3px below the text's top |
| `Annotation.DrawAnnotation` | new_caledonia_maps/annotation.py:152-179 | line from the anchor to anchor + offset, label measured from the line's end with no icon |
| `Annotation.DrawAnnotationWithFlag` | new_caledonia_maps/annotation.py:182-221 | label measured from the line's end with the icon's size; flag right edge 3px before the text, flag top 3px below the text top |
| `Annotation.IconShiftsOnlyRight` | new_caledonia_maps/annotation.py:128-132 | the flagged and plain annotations share the line and `text_y`; `text_x` differs only for right, by icon width + 3px |
| `Annotation.LeftFallsThrough` | new_caledonia_maps/annotation.py:42-43 | "left" lays out exactly as an unrecognised direction, in both public functions |
| `Annotation.FlagClearsLineEnd` | new_caledonia_maps/annotation.py:127-132 | for right, the flag's left edge is 4px past the line end, whatever the icon width, hence strictly past it |
| `Annotation.DownwardExample` | new_caledonia_maps/annotation.py:38-39 | anchor (100,100), down, 50, left-aligned: the line ends at (100,150) and the text origin is (100 - 2px, 150 + 2px) |
| `FlagAnnotation.LineEnd` | new_caledonia_maps/flag_annotation.py:23-38 | a segment is added exactly for up, down and right, ending one distance from the anchor along that direction's unit step |
| `FlagAnnotation.DrawAnnotationWithFlag` | new_caledonia_maps/flag_annotation.py:23-114 | the segment as `LineEnd` states; the anchor marker exists exactly when requested, centred on the anchor, dot inside ring; text origin measured from the anchor plus distance: bottom edge 2px above the line end for up, top 2px below it for down, first line centred on the anchor's y for right, `text_y = 0` otherwise; right: icon starts 4px past the line end; flag 3px before and 3px below the text |
| `FlagAnnotation.AgreesWithCurrent` | new_caledonia_maps/flag_annotation.py:23-114 | for up, down and right, a scalar distance and no curve deltas, the legacy line end, anchor marker, text origin and flag equal the current renderer's |
| `FlagAnnotation.LeftDiffersFromCurrent` | new_caledonia_maps/flag_annotation.py:84-102 | for left or unknown directions the legacy renderer adds no segment and its text starts one distance right of the current renderer's; both put `text_y` at 0 |
| `FlagAnnotation.FlagClearsLineEnd` | new_caledonia_maps/flag_annotation.py:90-93 | for right, the flag's left edge is `anchor.x + d + 4px`, independent of the icon width and strictly past the line end |
| `ScaleBar.PillBounds` | new_caledonia_maps/map_scale.py:47-56 | the pill's bounds are valid, `2r` high, and equal `[0, w] x [-r, r]` when `w >= 2r` |
| `ScaleBar.PillWithinBounds` | new_caledonia_maps/map_scale.py:47-56 | every point of the union of the two discs and the middle rectangle lies within the bounds |
| `ScaleBar.PillBoundsTouched` | new_caledonia_maps/map_scale.py:47-56 | each of the four edges of the bounds is touched by a point of the pill |
| `ScaleBar.PillBoundsLeast` | new_caledonia_maps/map_scale.py:71-74 | any box holding every point of the pill holds the bounds, so they are the pill's bounding box |
| `ScaleBar.FaceWithinPill` | new_caledonia_maps/map_scale.py:59 | the face (the pill inset by the line thickness) lies inside the pill |
| `ScaleBar.FaceBounds` | new_caledonia_maps/map_scale.py:59 | the face keeps the line thickness clear of every edge of the pill's bounds |
| `ScaleBar.FaceHoldsBand` | new_caledonia_maps/map_scale.py:59 | the face contains the full band `[r, w-r] x [-(r-lt), r-lt]` |
| `ScaleBar.CutIndices` | new_caledonia_maps/map_scale.py:60 | the cut indices are `1, 3, 5, ...`, `n div 2` of them for `n >= 2`, none for `n <= 1`, all odd and below `n` |
| `ScaleBar.CutIndicesAreOdd` | new_caledonia_maps/map_scale.py:60 | an index is cut exactly when it is odd and in `[0, n)` |
| `ScaleBar.CutExamples` | new_caledonia_maps/map_scale.py:60 | four and five segments both cut slices 1 and 3; one, zero or a negative count cuts none |
| `ScaleBar.CutSlices` | new_caledonia_maps/map_scale.py:60-66 | the loop builds one slice per cut index, slice `k` spanning `[k w/n, (k+1) w/n] x [-r, r]`; for `w >= 0` the slices lie within `[0, w] x [-r, r]` and run left to right without overlapping |
| `ScaleBar.TickWithinPill` | new_caledonia_maps/map_scale.py:59-67 | the remaining tick face never reaches outside the pill |
| `ScaleBar.OddSegmentCut` | new_caledonia_maps/map_scale.py:60-67 | a point strictly inside an odd segment's slice is not part of the ticks |
| `ScaleBar.EvenSegmentKept` | new_caledonia_maps/map_scale.py:60-67 | a face point strictly inside an even segment's column stays part of the ticks |
| `MapScale.ToCanvas` | new_caledonia_maps/map_scale.py:40-42 | the canvas length is in the projection's ratio to the geographic length: `c * geo_units == canvas_units * geo` |
| `MapScale.ToCanvasAdditive` | new_caledonia_maps/map_scale.py:90-92 | the same ratio maps each label's distance, and distances add up along the bar |
| `MapScale.Radius` | new_caledonia_maps/map_scale.py:37-47 | the end radius is two line thicknesses, larger than one line thickness, and a pill of any length built from it is exactly as tall as the bar's thickness (four line thicknesses) |
| `MapScale.LegendFaceNonEmpty` | new_caledonia_maps/map_scale.py:59 | with the legend's own constants the inset face keeps a band one line thickness either side of the centre line |
| `MapScale.LabelBox` | new_caledonia_maps/map_scale.py:90-97 | each label is centred on its tick, as wide and high as its measured text, with its bottom edge at `-(r + line_thickness)` |
| `MapScale.RunningBounds` | new_caledonia_maps/map_scale.py:71-113 | the running min/max holds the pill's bounds and every label box, and each of its edges is an edge of one of them |
| `MapScale.TranslationAsWritten` | new_caledonia_maps/map_scale.py:115-123 | after translating, the bounding box's top edge is on the top margin and its right edge at the right margin plus `bbox.min.x` |
| `MapScale.Translation` | new_caledonia_maps/map_scale.py:115-123 | after translating, the bounding box's top-right corner lies on both margins |
| `MapScale.TranslationsAgreeWhenFlush` | new_caledonia_maps/map_scale.py:121 | the two translations agree exactly when the bounding box starts at x = 0 |
| `MapScale.ZeroLabelMissesMargin` | new_caledonia_maps/map_scale.py:115-123 | a 10pt-wide label at distance 0 leaves the right edge 5pt short of the margin as written, and on it when corrected |
| `MapScale.DrawMapScale` | new_caledonia_maps/map_scale.py:17-123 | bar length by the projection ratio, radius, pill bounds, one slice per odd index, one centred box per label; the bounding box holds bar and labels and each of its edges is an edge of the bar's bounds or of a label box, so it is their running min/max; it is at least the bar's length wide and at least `2r + line_thickness + label height` high for every label; the translation puts its top edge on the top margin and its right edge at the right margin plus `bbox.min.x` |

## Left out

- Drawing side effects: `move_to`, `curve_to`, `line_to`, `arc`, stroke and
  fill, colours, dashes, line caps and widths, and the surface's
  `save`/`restore`/`translate` stack. Only the numbers passed to them are
  modelled.
- Pango text shaping and markup: text width, height, line count and each
  scale label's logical size are inputs. A label's logical rectangle is
  taken to start at the layout's position, which is what Pango reports for a
  layout with no set width.
- SVG loading and `read_svg_size`: the icon size is an input; a missing
  file, which the source reports as a load error, is not modelled.
- Shapely: `buffer(radius)` approximates a disc by a polygon. The model uses
  exact discs. The polygon's vertices on the axes make its bounds equal the
  exact disc's, so `PillBounds` agrees with `scale_polygon.bounds` up to
  floating-point rounding.
- `ScaleBar.FaceWithinPill`: the inset face is modelled as the exact
  erosion of the pill, the points within `r - line_thickness` of the
  centre segment. This holds only when the bar is at least as long as it is
  thick (`w >= 2r`), and the lemmas about the face require that.
- `ScaleBar.FaceBounds`: stated only for bars at least as long as they are
  thick (`w >= 2r`), for the same reason; a shorter bar's face is not
  modelled.
- `ScaleBar.TickWithinPill`: stated only for `w >= 2r`, since the ticks are
  the face minus the cut slices and the face is modelled only there.
- `CanvasBbox`'s constructor is not part of this model. The legend's
  bounding box (map_scale.py:110-113) is read as built from its two corners,
  `(min_x, min_y)` and `(max_x, max_y)`, so its `width` is `max.x - min.x`.
  Some scripts in the repository build a `CanvasBbox` from a position, a width
  and a height instead; under that reading line 110 would not build this box.
- `CanvasUnit` conversions between px, pt and Pango units: one unit
  (points) with a positive points-per-pixel factor.
- Floating point: all arithmetic is exact real arithmetic.
- A projection scale with `geo_units == 0`: the source would raise a
  division error, and the model requires a non-zero ratio denominator.
- The render scripts (`world.py`, `panama.py`, `orthographic.py`,
  `preview.py`) and the hillshade pipelines: shapefile and OSM loading,
  projection, polygon set operations, colour themes, GDAL, potrace and CLI
  handling, none of which holds layout logic.

## Findings

| source | as written | input that shows it | evidently intended | confidence | as-written member | corrected member |
|---|---|---|---|---|---|---|
| new_caledonia_maps/map_scale.py:121 | the x translation is `(canvas.max.x - margin) - bbox.width`, which moves the bbox's right edge to `canvas.max.x - margin + bbox.min.x` | a label at distance 0 whose text is 10pt wide gives `bbox.min.x = -5`; on a 1000pt-wide canvas with `u = 1` the right edge lands at 945 instead of 950 | subtract `bbox.max.x`, so the top-right corner of the legend sits on the margins, as the function's docstring and comments describe | medium, assuming `CanvasBbox` is built from its two corners, as line 110 passes them; not executed | `MapScale.TranslationAsWritten`, `MapScale.ZeroLabelMissesMargin` | `MapScale.Translation` |

`MapScale.DrawMapScale` keeps the translation as written, because it
models what the source draws. `MapScale.Translation` is the placement that
puts the top-right corner on the margins.
