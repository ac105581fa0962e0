/**
 The geometry of the distance-scale bar: a pill of length `w` and radius
 `r` (two end discs and the rectangle between their centres), its face
 inset by the line thickness, the odd-indexed slices cut out of that face,
 and the ticks that remain.

 The source builds these as polygons; here each shape is a membership
 predicate over canvas points, and the numbers the source reads back (the
 pill's bounds, the slices' corners) are functions proved to agree with
 those predicates.
 */
module ScaleBar {
  import opened Canvas

  function Sq(a: real): real {
    a * a
  }

  /** A square below `r * r` has a root between `-r` and `r`. */
  lemma SquareBound(a: real, r: real)
    requires 0.0 <= r && Sq(a) <= Sq(r)
    ensures -r <= a <= r
  {
    SquareBoundAbove(a, r);
    assert Sq(-a) == Sq(a);
    SquareBoundAbove(-a, r);
  }

  lemma SquareBoundAbove(a: real, r: real)
    requires 0.0 <= r && Sq(a) <= Sq(r)
    ensures a <= r
  {
    if a > r {
      SquareGrows(r, a);
      assert false;
    }
  }

  lemma SquareGrows(a: real, b: real)
    requires 0.0 <= a < b
    ensures Sq(a) < Sq(b)
  {
    var d, e := b - a, b + a;
    PositiveProduct(d, e);
    assert 0.0 < d * e;
    assert d * e == b * b - a * a;
    assert Sq(b) - Sq(a) == d * e;
  }

  lemma PositiveProduct(a: real, b: real)
    requires 0.0 < a && 0.0 < b
    ensures 0.0 < a * b
  {
  }

  lemma SquareMonotone(a: real, b: real)
    requires 0.0 <= a <= b
    ensures Sq(a) <= Sq(b)
  {
    assert Sq(b) - Sq(a) == (b - a) * (b + a);
    assert 0.0 <= (b - a) * (b + a) by { NonNegativeProduct(b - a, b + a); }
  }

  // ---------------------------------------------------------------------------
  // The pill
  // ---------------------------------------------------------------------------

  predicate InDisc(c: Point, r: real, p: Point) {
    Sq(p.x - c.x) + Sq(p.y - c.y) <= Sq(r)
  }

  /** The rectangle between the two disc centres, whichever way round they lie. */
  function MiddleRect(w: real, r: real): Box {
    Box(Point(Min(r, w - r), -r), Point(Max(r, w - r), r))
  }

  /** The pill: the union of the start disc, the middle rectangle and the end disc. */
  predicate InPill(w: real, r: real, p: Point) {
    || InDisc(Point(r, 0.0), r, p)
    || InBox(MiddleRect(w, r), p)
    || InDisc(Point(w - r, 0.0), r, p)
  }

  /**
   The pill's bounds, as the source reads them back from the union. When
   the bar is at least as long as its thickness these are `[0, w] x [-r, r]`.
   */
  function PillBounds(w: real, r: real): (b: Box)
    requires 0.0 <= r
    ensures b.Valid()
    ensures w >= 2.0 * r ==> b == Box(Point(0.0, -r), Point(w, r))
    ensures b.Height() == 2.0 * r
  {
    Box(Point(Min(0.0, w - 2.0 * r), -r), Point(Max(2.0 * r, w), r))
  }

  /** Every point of the pill lies within its bounds. */
  lemma PillWithinBounds(w: real, r: real, p: Point)
    requires 0.0 <= r && InPill(w, r, p)
    ensures InBox(PillBounds(w, r), p)
  {
    if InDisc(Point(r, 0.0), r, p) {
      DiscWithinBox(Point(r, 0.0), r, p);
    } else if InDisc(Point(w - r, 0.0), r, p) {
      DiscWithinBox(Point(w - r, 0.0), r, p);
    }
  }

  lemma DiscWithinBox(c: Point, r: real, p: Point)
    requires 0.0 <= r && InDisc(c, r, p)
    ensures c.x - r <= p.x <= c.x + r && c.y - r <= p.y <= c.y + r
  {
    SquareBound(p.x - c.x, r);
    SquareBound(p.y - c.y, r);
  }

  /** Each edge of the bounds is touched by the pill, so no smaller box holds it. */
  lemma PillBoundsTouched(w: real, r: real)
    requires 0.0 <= r
    ensures var b := PillBounds(w, r);
      && InPill(w, r, Point(b.min.x, 0.0)) && InPill(w, r, Point(b.max.x, 0.0))
      && InPill(w, r, Point(r, b.min.y)) && InPill(w, r, Point(r, b.max.y))
  {
    var b := PillBounds(w, r);
    if w - 2.0 * r < 0.0 {
      assert InDisc(Point(w - r, 0.0), r, Point(b.min.x, 0.0));
    } else {
      assert InDisc(Point(r, 0.0), r, Point(b.min.x, 0.0));
    }
    if w > 2.0 * r {
      assert InDisc(Point(w - r, 0.0), r, Point(b.max.x, 0.0));
    } else {
      assert InDisc(Point(r, 0.0), r, Point(b.max.x, 0.0));
    }
    assert InDisc(Point(r, 0.0), r, Point(r, b.min.y));
    assert InDisc(Point(r, 0.0), r, Point(r, b.max.y));
  }

  /** The bounds are the least box that holds every point of the pill. */
  lemma PillBoundsLeast(w: real, r: real, c: Box)
    requires 0.0 <= r
    requires forall p :: InPill(w, r, p) ==> InBox(c, p)
    ensures Within(PillBounds(w, r), c)
  {
    PillBoundsTouched(w, r);
    var b := PillBounds(w, r);
    assert InBox(c, Point(b.min.x, 0.0)) && InBox(c, Point(b.max.x, 0.0));
    assert InBox(c, Point(r, b.min.y)) && InBox(c, Point(r, b.max.y));
  }

  // ---------------------------------------------------------------------------
  // The face: the pill inset by the line thickness
  // ---------------------------------------------------------------------------

  function Clamp(x: real, lo: real, hi: real): real {
    Max(lo, Min(x, hi))
  }

  /**
   The pill of length `w` (with `w >= 2r`) inset by `lt`: the points within
   `r - lt` of the segment joining the two disc centres.
   */
  predicate InFace(w: real, r: real, lt: real, p: Point) {
    Sq(p.x - Clamp(p.x, r, w - r)) + Sq(p.y) <= Sq(r - lt)
  }

  /** The face lies inside the pill. */
  lemma FaceWithinPill(w: real, r: real, lt: real, p: Point)
    requires w >= 2.0 * r && 0.0 <= lt <= r
    requires InFace(w, r, lt, p)
    ensures InPill(w, r, p)
  {
    SquareMonotone(r - lt, r);
    if p.x < r {
      assert InDisc(Point(r, 0.0), r, p);
    } else if p.x > w - r {
      assert InDisc(Point(w - r, 0.0), r, p);
    } else {
      SquareBound(p.y, r);
      assert InBox(MiddleRect(w, r), p);
    }
  }

  /** The face keeps `lt` clear of every edge of the pill's bounds. */
  lemma FaceBounds(w: real, r: real, lt: real, p: Point)
    requires w >= 2.0 * r && 0.0 <= lt <= r
    requires InFace(w, r, lt, p)
    ensures lt <= p.x <= w - lt && -(r - lt) <= p.y <= r - lt
  {
    var t := Clamp(p.x, r, w - r);
    assert Sq(p.x - t) <= Sq(r - lt);
    assert Sq(p.y) <= Sq(r - lt);
    SquareBound(p.x - t, r - lt);
    SquareBound(p.y, r - lt);
  }

  /** The face holds the full-length band `[r, w - r] x [-(r - lt), r - lt]`. */
  lemma FaceHoldsBand(w: real, r: real, lt: real, p: Point)
    requires w >= 2.0 * r && 0.0 <= lt <= r
    requires r <= p.x <= w - r && -(r - lt) <= p.y <= r - lt
    ensures InFace(w, r, lt, p)
  {
    if p.y >= 0.0 {
      SquareMonotone(p.y, r - lt);
    } else {
      SquareMonotone(-p.y, r - lt);
    }
  }

  // ---------------------------------------------------------------------------
  // Cut slices and ticks
  // ---------------------------------------------------------------------------

  /** How many odd indices lie strictly below `n`. */
  function CutCount(n: int): nat {
    if n <= 1 then 0 else n / 2
  }

  /** The indices the source cuts, in order: `range(1, n, 2)`. */
  function CutIndices(n: int): (s: seq<int>)
    ensures |s| == CutCount(n)
    ensures forall i :: 0 <= i < |s| ==> s[i] == 2 * i + 1
    ensures forall k :: k in s ==> 1 <= k < n && k % 2 == 1
  {
    seq(CutCount(n), i => 2 * i + 1)
  }

  /** An index is cut exactly when it is odd and below `n`. */
  lemma CutIndicesAreOdd(n: int, k: int)
    ensures k in CutIndices(n) <==> (0 <= k < n && k % 2 == 1)
  {
    if 0 <= k < n && k % 2 == 1 {
      var i := (k - 1) / 2;
      assert CutIndices(n)[i] == k;
    }
  }

  /** Four or five segments both cut slices 1 and 3; a single segment or none cuts nothing. */
  lemma CutExamples()
    ensures CutIndices(4) == [1, 3] && CutIndices(5) == [1, 3]
    ensures CutIndices(1) == [] && CutIndices(0) == [] && CutIndices(-3) == []
  {
  }

  /** The left edge of segment `k` of `n` equal segments of a bar of length `w`. */
  function SliceX(k: int, w: real, n: int): real
    requires n >= 1
  {
    (k as real) * w / (n as real)
  }

  lemma {:induction false} SliceXMonotone(j: int, k: int, w: real, n: int)
    requires n >= 1 && 0.0 <= w && j <= k
    ensures SliceX(j, w, n) <= SliceX(k, w, n)
  {
    var step := w / (n as real);
    assert SliceX(j, w, n) == (j as real) * step;
    assert SliceX(k, w, n) == (k as real) * step;
    assert (k as real) * step - (j as real) * step == ((k - j) as real) * step;
    NonNegativeProduct((k - j) as real, step);
  }

  /** The full-height slice of segment `k`. */
  function SliceBox(k: int, w: real, r: real, n: int): Box
    requires n >= 1
  {
    Box(Point(SliceX(k, w, n), -r), Point(SliceX(k + 1, w, n), r))
  }

  /** Slice `k` of `n` lies on the bar and ends where slice `k + 1` starts. */
  lemma SliceFacts(k: int, w: real, r: real, n: int)
    requires 0 <= k < n && 0.0 <= w
    ensures Within(SliceBox(k, w, r, n), Box(Point(0.0, -r), Point(w, r)))
    ensures SliceX(k, w, n) <= SliceX(k + 1, w, n) <= SliceX(k + 2, w, n)
  {
    SliceXMonotone(0, k, w, n);
    SliceXMonotone(k + 1, n, w, n);
    SliceXMonotone(k, k + 1, w, n);
    SliceXMonotone(k + 1, k + 2, w, n);
    assert SliceX(0, w, n) == 0.0;
    assert SliceX(n, w, n) == w;
  }

  predicate InInterior(b: Box, p: Point) {
    b.min.x < p.x < b.max.x && b.min.y < p.y < b.max.y
  }

  /**
   The slices, one per cut index, as the source's loop builds them.
   They run left to right without overlapping and stay within `[0, w] x [-r, r]`.
   */
  method CutSlices(w: real, r: real, n: int) returns (slices: seq<Box>)
    ensures |slices| == CutCount(n)
    ensures forall i :: 0 <= i < |slices| ==> n >= 1 && slices[i] == SliceBox(CutIndices(n)[i], w, r, n)
    ensures 0.0 <= w ==> forall i :: 0 <= i < |slices| ==> Within(slices[i], Box(Point(0.0, -r), Point(w, r)))
    ensures 0.0 <= w ==> forall i, j :: 0 <= i < j < |slices| ==> slices[i].max.x <= slices[j].min.x
  {
    slices := [];
    var segment := 1;
    while segment < n
      invariant 1 <= segment && segment % 2 == 1
      invariant segment == 1 || segment <= n + 1
      invariant |slices| == (segment - 1) / 2
      invariant forall i :: 0 <= i < |slices| ==> n >= 1 && slices[i] == SliceBox(2 * i + 1, w, r, n)
      invariant 0.0 <= w ==> forall i :: 0 <= i < |slices| ==> Within(slices[i], Box(Point(0.0, -r), Point(w, r)))
      invariant 0.0 <= w ==> forall i :: 0 <= i < |slices| ==> slices[i].max.x <= SliceX(segment, w, n)
      invariant 0.0 <= w ==> forall i, j :: 0 <= i < j < |slices| ==> slices[i].max.x <= slices[j].min.x
      decreases n - segment
    {
      if 0.0 <= w {
        SliceFacts(segment, w, r, n);
      }
      slices := slices + [SliceBox(segment, w, r, n)];
      segment := segment + 2;
    }
    assert segment == 1 || segment == n || segment == n + 1;
  }

  /**
   A tick point: on the face and outside the interior of every cut slice
   (the difference keeps the slices' boundaries).
   */
  predicate InTick(w: real, r: real, lt: real, n: int, p: Point) {
    && InFace(w, r, lt, p)
    && forall k :: k in CutIndices(n) ==> !InInterior(SliceBox(k, w, r, n), p)
  }

  /** Ticks never bleed past the pill's outline. */
  lemma {:induction false} TickWithinPill(w: real, r: real, lt: real, n: int, p: Point)
    requires w >= 2.0 * r && 0.0 <= lt <= r
    requires InTick(w, r, lt, n, p)
    ensures InPill(w, r, p)
  {
    FaceWithinPill(w, r, lt, p);
  }

  /** A face point strictly inside an odd segment's column is cut away. */
  lemma {:induction false} OddSegmentCut(w: real, r: real, lt: real, n: int, k: int, p: Point)
    requires 0 <= k < n && k % 2 == 1
    requires SliceX(k, w, n) < p.x < SliceX(k + 1, w, n) && -r < p.y < r
    ensures !InTick(w, r, lt, n, p)
  {
    CutIndicesAreOdd(n, k);
  }

  /** A face point strictly inside an even segment's column is kept. */
  lemma {:induction false} EvenSegmentKept(w: real, r: real, lt: real, n: int, j: int, p: Point)
    requires 0.0 <= w && 0 <= j < n && j % 2 == 0
    requires SliceX(j, w, n) < p.x < SliceX(j + 1, w, n)
    requires InFace(w, r, lt, p)
    ensures InTick(w, r, lt, n, p)
  {
    forall k | k in CutIndices(n)
      ensures !InInterior(SliceBox(k, w, r, n), p)
    {
      if k < j {
        SliceXMonotone(k + 1, j, w, n);
      } else {
        assert k > j;
        SliceXMonotone(j + 1, k, w, n);
      }
    }
  }
}
