/**
 Shared vocabulary of the layout model: canvas points and offsets, axis-aligned
 boxes with expansion-by-union, the pixel unit, annotation directions and
 text alignments.

 Every length is a canvas length expressed in points, as a `real`. The source
 converts pixels to points with a fixed factor; here that factor is the
 parameter `u: PtPerPx` of every function that uses a pixel constant.
 */
module Canvas {

  datatype Option<T> = None | Some(value: T)

  /** A position on the canvas; y grows downwards. */
  datatype Point = Point(x: real, y: real)

  /** A displacement (or a size, read as width and height). */
  datatype Vec = Vec(dx: real, dy: real)

  function Add(p: Point, v: Vec): Point {
    Point(p.x + v.dx, p.y + v.dy)
  }

  function Scale(v: Vec, k: real): Vec {
    Vec(v.dx * k, v.dy * k)
  }

  /** How many points one pixel is: a positive conversion factor. */
  type PtPerPx = r: real | r > 0.0 witness 1.0

  /** A length of `n` pixels, in points. */
  function Px(n: real, u: PtPerPx): real {
    n * u
  }

  /** The displacement that leads from `from` to `to`. */
  function Diff(to: Point, from: Point): Vec {
    Vec(to.x - from.x, to.y - from.y)
  }

  /** A product of two non-negative reals is non-negative. */
  lemma NonNegativeProduct(a: real, b: real)
    requires 0.0 <= a && 0.0 <= b
    ensures 0.0 <= a * b
  {
  }

  /** An axis-aligned box given by its minimum and maximum corners. */
  datatype Box = Box(min: Point, max: Point) {

    predicate Valid() {
      min.x <= max.x && min.y <= max.y
    }

    function Width(): real {
      max.x - min.x
    }

    function Height(): real {
      max.y - min.y
    }
  }

  predicate InBox(b: Box, p: Point) {
    b.min.x <= p.x <= b.max.x && b.min.y <= p.y <= b.max.y
  }

  /** `inner` lies inside `outer` (edges may touch). */
  predicate Within(inner: Box, outer: Box) {
    outer.min.x <= inner.min.x && inner.max.x <= outer.max.x &&
    outer.min.y <= inner.min.y && inner.max.y <= outer.max.y
  }

  function Min(a: real, b: real): real {
    if a <= b then a else b
  }

  function Max(a: real, b: real): real {
    if a >= b then a else b
  }

  /** The smallest box holding both `a` and `b`: a running min/max of corners. */
  function Union(a: Box, b: Box): (r: Box)
    ensures Within(a, r) && Within(b, r)
    ensures forall c: Box :: Within(a, c) && Within(b, c) ==> Within(r, c)
    ensures r.min.x == a.min.x || r.min.x == b.min.x
    ensures r.max.x == a.max.x || r.max.x == b.max.x
    ensures r.min.y == a.min.y || r.min.y == b.min.y
    ensures r.max.y == a.max.y || r.max.y == b.max.y
  {
    Box(Point(Min(a.min.x, b.min.x), Min(a.min.y, b.min.y)),
        Point(Max(a.max.x, b.max.x), Max(a.max.y, b.max.y)))
  }

  /**
   The four placement directions an annotation knows by name. The source
   passes a free string; `Other` stands for every string that is none of
   "up", "down", "left" or "right".
   */
  datatype Direction = Up | Down | Left | Right | Other

  function ParseDirection(s: string): (d: Direction)
    ensures d == Up <==> s == "up"
    ensures d == Down <==> s == "down"
    ensures d == Left <==> s == "left"
    ensures d == Right <==> s == "right"
  {
    if s == "up" then Up
    else if s == "down" then Down
    else if s == "left" then Left
    else if s == "right" then Right
    else Other
  }

  /** Pango's paragraph alignment of a text layout. */
  datatype Alignment = AlignLeft | AlignCenter | AlignRight

  /**
   What the text layout engine measured for a label: logical width and
   height, in points, and its number of lines (Pango reports at least one).
   */
  datatype TextMetrics = TextMetrics(width: real, height: real, lineCount: LineCount)

  type LineCount = n: int | n >= 1 witness 1
}
