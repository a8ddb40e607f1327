/** The dataframe's hit tests: which features lie under a screen position.
    Points are tested as discs, lines and polygons triangle by triangle,
    with a scan that reports each feature at most once. */
module HitTest {
  import opened Types
  import opened Arith
  import Lines

  datatype Point = Point(x: real, y: real)

  /** `halfPlaneTest`: the cross product of (p - b) and (a - b); its sign
      says on which side of the line through a and b the point lies. */
  function HalfPlane(p: Point, a: Point, b: Point): real
  {
    (p.x - b.x) * (a.y - b.y) - (a.x - b.x) * (p.y - b.y)
  }

  /** Both ends of the edge lie on its line. */
  lemma HalfPlaneOnEndpoints(a: Point, b: Point)
    ensures HalfPlane(a, a, b) == 0.0 && HalfPlane(b, a, b) == 0.0
  {
  }

  /** Reversing the edge flips the side. */
  lemma HalfPlaneAntisymmetric(p: Point, a: Point, b: Point)
    ensures HalfPlane(p, b, a) == -HalfPlane(p, a, b)
  {
    var u := (p.x - b.x) * (a.y - b.y);
    var w := (a.x - b.x) * (p.y - b.y);
    assert HalfPlane(p, b, a) == (p.x - a.x) * (b.y - a.y) - (b.x - a.x) * (p.y - a.y);
    assert (p.x - a.x) * (b.y - a.y) == (p.x - b.x) * (b.y - a.y) + (b.x - a.x) * (b.y - a.y);
    assert (b.x - a.x) * (p.y - a.y) == (b.x - a.x) * (p.y - b.y) + (b.x - a.x) * (b.y - a.y);
  }

  /** `pointInTriangle` as written: the three `halfPlaneTest(..) < 0`
      flags agree. */
  function PointInTriangleAsWritten(p: Point, v1: Point, v2: Point, v3: Point): bool
  {
    var b1 := HalfPlane(p, v1, v2) < 0.0;
    var b2 := HalfPlane(p, v2, v3) < 0.0;
    var b3 := HalfPlane(p, v3, v1) < 0.0;
    b1 == b2 && b2 == b3
  }

  /** As written, a point is inside when all three edge tests are
      negative or all three are non-negative. */
  lemma AsWrittenSigns(p: Point, v1: Point, v2: Point, v3: Point)
    ensures PointInTriangleAsWritten(p, v1, v2, v3) <==>
      var h1, h2, h3 := HalfPlane(p, v1, v2), HalfPlane(p, v2, v3), HalfPlane(p, v3, v1);
      (h1 < 0.0 && h2 < 0.0 && h3 < 0.0) || (h1 >= 0.0 && h2 >= 0.0 && h3 >= 0.0)
  {
  }

  /** The test the comment on `pointInTriangle` describes: inside or on an
      edge, for either winding of the triangle. No edge test is strictly
      negative while another is strictly positive. */
  function PointInTriangle(p: Point, v1: Point, v2: Point, v3: Point): bool
  {
    var h1, h2, h3 := HalfPlane(p, v1, v2), HalfPlane(p, v2, v3), HalfPlane(p, v3, v1);
    (h1 <= 0.0 && h2 <= 0.0 && h3 <= 0.0) || (h1 >= 0.0 && h2 >= 0.0 && h3 >= 0.0)
  }

  /** Both tests depend only on the cyclic order of the vertices. */
  lemma TrianglesRotationInvariant(p: Point, v1: Point, v2: Point, v3: Point)
    ensures PointInTriangle(p, v2, v3, v1) == PointInTriangle(p, v1, v2, v3)
    ensures PointInTriangleAsWritten(p, v2, v3, v1) == PointInTriangleAsWritten(p, v1, v2, v3)
  {
  }

  /** The corrected test does not depend on the winding either. */
  lemma PointInTriangleWindingFree(p: Point, v1: Point, v2: Point, v3: Point)
    ensures PointInTriangle(p, v1, v3, v2) == PointInTriangle(p, v1, v2, v3)
  {
    HalfPlaneAntisymmetric(p, v1, v2);
    HalfPlaneAntisymmetric(p, v2, v3);
    HalfPlaneAntisymmetric(p, v3, v1);
  }

  /** Edges are part of the triangle: every vertex is inside it. */
  lemma VerticesAreInside(v1: Point, v2: Point, v3: Point)
    ensures PointInTriangle(v1, v1, v2, v3)
    ensures PointInTriangle(v2, v1, v2, v3)
    ensures PointInTriangle(v3, v1, v2, v3)
  {
    HalfPlaneOnEndpoints(v1, v2);
    HalfPlaneOnEndpoints(v2, v3);
    HalfPlaneOnEndpoints(v3, v1);
  }

  /** Off the edge lines the two tests agree; they differ only for points
      on an edge line. */
  lemma AsWrittenAgreesOffEdges(p: Point, v1: Point, v2: Point, v3: Point)
    requires HalfPlane(p, v1, v2) != 0.0 && HalfPlane(p, v2, v3) != 0.0 && HalfPlane(p, v3, v1) != 0.0
    ensures PointInTriangleAsWritten(p, v1, v2, v3) == PointInTriangle(p, v1, v2, v3)
  {
  }

  /** The strict `< 0` loses the edges of clockwise triangles: a point on
      one edge with the other two tests negative is rejected as written,
      although the corrected test and the same triangle wound the other
      way both accept it. */
  lemma AsWrittenMissesClockwiseEdges(p: Point, v1: Point, v2: Point, v3: Point)
    requires HalfPlane(p, v1, v2) < 0.0 && HalfPlane(p, v2, v3) < 0.0 && HalfPlane(p, v3, v1) == 0.0
    ensures !PointInTriangleAsWritten(p, v1, v2, v3)
    ensures PointInTriangleAsWritten(p, v1, v3, v2)
    ensures PointInTriangle(p, v1, v2, v3)
  {
    HalfPlaneAntisymmetric(p, v1, v2);
    HalfPlaneAntisymmetric(p, v2, v3);
    HalfPlaneAntisymmetric(p, v3, v1);
  }

  /** Such a point exists: the midpoint (1,0) of the edge from (2,0) to
      (0,0) of the clockwise triangle (0,0), (0,2), (2,0). */
  lemma AsWrittenMissesClockwiseEdge()
    ensures var p, v1, v2, v3 := Point(1.0, 0.0), Point(0.0, 0.0), Point(0.0, 2.0), Point(2.0, 0.0);
      !PointInTriangleAsWritten(p, v1, v2, v3) &&
      PointInTriangleAsWritten(p, v1, v3, v2) &&
      PointInTriangle(p, v1, v2, v3)
  {
    ClockwiseTests();
    AsWrittenMissesClockwiseEdges(Point(1.0, 0.0), Point(0.0, 0.0), Point(0.0, 2.0), Point(2.0, 0.0));
  }

  lemma ClockwiseTests()
    ensures HalfPlane(Point(1.0, 0.0), Point(0.0, 0.0), Point(0.0, 2.0)) == -2.0
    ensures HalfPlane(Point(1.0, 0.0), Point(0.0, 2.0), Point(2.0, 0.0)) == -2.0
    ensures HalfPlane(Point(1.0, 0.0), Point(2.0, 0.0), Point(0.0, 0.0)) == 0.0
  {
  }

  /** `pointInCircle`: within distance `scale` of the centre, the boundary
      included. */
  function PointInCircle(p: Point, center: Point, scale: real): (r: bool)
    ensures p == center ==> r
  {
    var dx, dy := p.x - center.x, p.y - center.y;
    dx * dx + dy * dy <= scale * scale
  }

  /** A point exactly `scale` away along an axis is inside. */
  lemma CircleBoundaryIncluded(center: Point, scale: real)
    ensures PointInCircle(Point(center.x + scale, center.y), center, scale)
    ensures PointInCircle(Point(center.x, center.y - scale), center, scale)
  {
  }

  /** The largest hit diameter of a point, in pixels. */
  const MaxPointDiameter: real := 126.0
  /** The largest hit width of a line, in pixels: the width decoder's
      largest value. */
  const MaxLineWidth: real := 336.0

  lemma LineCapIsDecoderMax()
    ensures MaxLineWidth == Lines.DecodeWidth(1.0)
  {
  }

  /** The hit radius of a point: its diameter (width plus stroke width)
      capped at 126 pixels, halved and scaled to viewport units. */
  function PointRadius(diameter: real, widthScale: real): real
  {
    Min(diameter, MaxPointDiameter) / 2.0 * widthScale
  }

  /** However wide the style makes a point, a position farther than 63
      pixels from its centre never hits it. */
  lemma PointHitIsCapped(p: Point, center: Point, diameter: real, widthScale: real)
    requires diameter >= 0.0 && widthScale >= 0.0
    requires PointInCircle(p, center, PointRadius(diameter, widthScale))
    ensures var dx, dy := p.x - center.x, p.y - center.y;
      dx * dx + dy * dy <= (63.0 * widthScale) * (63.0 * widthScale)
  {
    var m := Min(diameter, MaxPointDiameter) / 2.0;
    assert 0.0 <= m <= 63.0;
    MulMonotone(m, 63.0, widthScale);
    MulNonneg(m, widthScale);
    SquareMonotone(m * widthScale, 63.0 * widthScale);
  }

  /** The hit half-width of a line: its width capped at 336 pixels, halved
      and scaled to viewport units. */
  function LineRadius(width: real, widthScale: real): real
  {
    Min(width, MaxLineWidth) / 2.0 * widthScale
  }

  lemma LineHitIsCapped(width: real, widthScale: real)
    requires width >= 0.0 && widthScale >= 0.0
    ensures 0.0 <= LineRadius(width, widthScale) <= 168.0 * widthScale
  {
    var m := Min(width, MaxLineWidth) / 2.0;
    MulMonotone(m, 168.0, widthScale);
    MulNonneg(m, widthScale);
  }

  // ---- points ----

  function Vertex(vertices: seq<real>, k: nat): Point
    requires 2 * k + 1 < |vertices|
  {
    Point(vertices[2 * k], vertices[2 * k + 1])
  }

  /** Whether point feature `k` is under `p`, given the style's width and
      stroke width of that feature. */
  predicate PointHit(p: Point, vertices: seq<real>, widthScale: real, width: nat -> real, strokeWidth: nat -> real, k: nat)
    requires 2 * k + 1 < |vertices|
  {
    PointInCircle(p, Vertex(vertices, k), PointRadius(width(k) + strokeWidth(k), widthScale))
  }

  /** The point features among the first `m` that are hit, in order. */
  function PointHits(p: Point, vertices: seq<real>, widthScale: real, width: nat -> real, strokeWidth: nat -> real, m: nat): (r: seq<nat>)
    requires 2 * m <= |vertices|
    ensures forall k: nat :: k in r <==> k < m && PointHit(p, vertices, widthScale, width, strokeWidth, k)
  {
    if m == 0 then []
    else PointHits(p, vertices, widthScale, width, strokeWidth, m - 1) +
         (if PointHit(p, vertices, widthScale, width, strokeWidth, m - 1) then [m - 1] else [])
  }

  /** `_getPointsAtPosition`: every vertex pair is one point feature; each
      one hit is reported, in vertex order. */
  method PointsAtPosition(p: Point, vertices: seq<real>, widthScale: real, width: nat -> real, strokeWidth: nat -> real)
    returns (hits: seq<nat>)
    requires |vertices| % 2 == 0
    ensures hits == PointHits(p, vertices, widthScale, width, strokeWidth, |vertices| / 2)
  {
    hits := [];
    var i := 0;
    while i < |vertices|
      invariant 0 <= i <= |vertices| && i % 2 == 0
      invariant hits == PointHits(p, vertices, widthScale, width, strokeWidth, i / 2)
      decreases |vertices| - i
    {
      var featureIndex := i / 2;
      var center := Point(vertices[i], vertices[i + 1]);
      var diameter := Min(width(featureIndex) + strokeWidth(featureIndex), MaxPointDiameter);
      var scale := diameter / 2.0 * widthScale;
      assert center == Vertex(vertices, featureIndex) && scale == PointRadius(width(featureIndex) + strokeWidth(featureIndex), widthScale);
      assert (i + 2) / 2 == featureIndex + 1;
      if PointInCircle(p, center, scale) {
        hits := hits + [featureIndex];
      }
      i := i + 2;
    }
  }

  // ---- triangles (lines and polygons) ----

  /** Decoded triangulated geometry: each feature is a run of whole
      triangles (six coordinates each), `bp[f]` is where feature `f`'s run
      ends, the ends strictly increase and the last one is the end of the
      vertex array. */
  predicate WellFormed(bp: seq<int>, n: int)
  {
    n % 6 == 0 &&
    (|bp| == 0 ==> n == 0) &&
    (|bp| > 0 ==> bp[|bp| - 1] == n) &&
    (forall j :: 0 <= j < |bp| ==> bp[j] > 0 && bp[j] % 6 == 0) &&
    (forall j, k :: 0 <= j < k < |bp| ==> bp[j] < bp[k])
  }

  /** Where feature `f`'s run of coordinates starts. */
  function Start(bp: seq<int>, f: nat): int
    requires f < |bp|
  {
    if f == 0 then 0 else bp[f - 1]
  }

  /** The number of leading run ends at or before `x`: the feature the
      coordinate `x` belongs to. */
  function Leading(bp: seq<int>, x: int): (m: nat)
    ensures m <= |bp|
    ensures forall j :: 0 <= j < m ==> bp[j] <= x
    ensures m < |bp| ==> bp[m] > x
  {
    if |bp| == 0 || bp[0] > x then 0
    else
      var m := Leading(bp[1..], x);
      assert forall j :: 1 <= j < 1 + m ==> bp[j] == bp[1..][j - 1];
      1 + m
  }

  /** In increasing breakpoints, the split of the elements into those at
      or before `x` and those after it determines the count. */
  lemma LeadingUnique(bp: seq<int>, x: int, m: nat)
    requires forall j, k :: 0 <= j < k < |bp| ==> bp[j] < bp[k]
    requires m <= |bp| && (forall j :: 0 <= j < m ==> bp[j] <= x) && (m < |bp| ==> bp[m] > x)
    ensures Leading(bp, x) == m
  {
  }

  /** In well-formed geometry the feature of `x` is the one whose run holds
      `x`, and no other run holds it. */
  lemma LeadingIsOwner(bp: seq<int>, n: int, x: int)
    requires WellFormed(bp, n) && 0 <= x < n
    ensures Leading(bp, x) < |bp|
    ensures Start(bp, Leading(bp, x)) <= x < bp[Leading(bp, x)]
    ensures forall f :: 0 <= f < |bp| && Start(bp, f) <= x < bp[f] ==> f == Leading(bp, x)
  {
    var m := Leading(bp, x);
    forall f | 0 <= f < |bp| && Start(bp, f) <= x < bp[f]
      ensures f == m
    {
    }
  }

  /** The feature of the last triangle before the end of run `f` is `f`. */
  lemma LeadingBeforeEnd(bp: seq<int>, n: int, f: nat)
    requires WellFormed(bp, n) && f < |bp|
    ensures Leading(bp, bp[f] - 6) == f
  {
    var x := bp[f] - 6;
    if f > 0 {
      assert bp[f - 1] < bp[f] && bp[f - 1] % 6 == 0 && bp[f] % 6 == 0;
      assert bp[f - 1] <= x;
    }
    assert 0 <= x < n by {
      if f < |bp| - 1 {
        assert bp[f] < bp[|bp| - 1];
      }
    }
    LeadingIsOwner(bp, n, x);
  }

  /** Moving one triangle on, the owning feature stays or advances by one,
      and it advances exactly when `i` reaches the current run end. */
  lemma LeadingStep(bp: seq<int>, n: int, i: int)
    requires WellFormed(bp, n) && 0 <= i < n && i % 6 == 0
    ensures var fi := Leading(bp, i - 6);
      Leading(bp, i) == if fi < |bp| && i >= bp[fi] then fi + 1 else fi
  {
    var fi, m := Leading(bp, i - 6), Leading(bp, i);
    assert forall j :: 0 <= j < fi ==> bp[j] <= i;
    if fi < |bp| && i >= bp[fi] {
      SameBoundary(bp[fi], i);
      assert fi + 1 < |bp| ==> bp[fi + 1] > i;
    } else {
      assert fi < |bp| ==> bp[fi] > i;
    }
  }

  /** Two triangle boundaries less than a triangle apart are equal. */
  lemma SameBoundary(a: int, b: int)
    requires a % 6 == 0 && b % 6 == 0 && b - 6 < a <= b
    ensures a == b
  {
  }

  /** Whether some triangle of feature `f` that starts before `lim` holds
      the position; `inside(f, t)` tests the triangle at coordinate `t`. */
  ghost predicate FeatureHit(bp: seq<int>, inside: (nat, nat) -> bool, f: nat, lim: int)
    requires f < |bp|
  {
    exists t: nat :: Start(bp, f) <= t < bp[f] && t < lim && t % 6 == 0 && inside(f, t)
  }

  /** The features among the first `m` with a hit triangle before `lim`, in
      order. */
  ghost function HitList(bp: seq<int>, inside: (nat, nat) -> bool, lim: int, m: nat): seq<nat>
    requires m <= |bp|
  {
    if m == 0 then []
    else HitList(bp, inside, lim, m - 1) + (if FeatureHit(bp, inside, m - 1, lim) then [m - 1] else [])
  }

  /** A feature is listed exactly when it has a hit, and the list is
      strictly increasing: no feature is listed twice. */
  lemma {:induction false} HitListMembers(bp: seq<int>, inside: (nat, nat) -> bool, lim: int, m: nat)
    requires m <= |bp|
    ensures var r := HitList(bp, inside, lim, m);
      (forall f: nat :: f in r <==> f < m && FeatureHit(bp, inside, f, lim)) &&
      (forall a, b :: 0 <= a < b < |r| ==> r[a] < r[b]) &&
      (forall a :: 0 <= a < |r| ==> r[a] < m)
  {
    if m > 0 {
      HitListMembers(bp, inside, lim, m - 1);
    }
  }

  lemma {:induction false} HitListSame(bp: seq<int>, inside: (nat, nat) -> bool, l1: int, l2: int, m: nat)
    requires m <= |bp|
    requires forall f :: 0 <= f < m ==> FeatureHit(bp, inside, f, l1) == FeatureHit(bp, inside, f, l2)
    ensures HitList(bp, inside, l1, m) == HitList(bp, inside, l2, m)
  {
    if m > 0 {
      HitListSame(bp, inside, l1, l2, m - 1);
    }
  }

  lemma {:induction false} HitListTail(bp: seq<int>, inside: (nat, nat) -> bool, lim: int, m: nat, m2: nat)
    requires m <= m2 <= |bp|
    requires forall f :: m <= f < m2 ==> !FeatureHit(bp, inside, f, lim)
    ensures HitList(bp, inside, lim, m2) == HitList(bp, inside, lim, m)
    decreases m2
  {
    if m2 > m {
      HitListTail(bp, inside, lim, m, m2 - 1);
    }
  }

  /** A missed triangle at `i` changes no feature's status. */
  lemma MissKeepsHits(bp: seq<int>, n: int, inside: (nat, nat) -> bool, i: nat)
    requires WellFormed(bp, n) && i < n && i % 6 == 0
    requires !inside(Leading(bp, i), i)
    ensures forall f :: 0 <= f < |bp| ==> FeatureHit(bp, inside, f, i + 6) == FeatureHit(bp, inside, f, i)
  {
    LeadingIsOwner(bp, n, i);
    forall f | 0 <= f < |bp| && FeatureHit(bp, inside, f, i + 6)
      ensures FeatureHit(bp, inside, f, i)
    {
      var t: nat :| Start(bp, f) <= t < bp[f] && t < i + 6 && t % 6 == 0 && inside(f, t);
      OnlyOwnerAt(bp, n, inside, i, f, t);
    }
  }

  lemma OnlyOwnerAt(bp: seq<int>, n: int, inside: (nat, nat) -> bool, i: nat, f: nat, t: nat)
    requires WellFormed(bp, n) && i < n && i % 6 == 0 && f < |bp|
    requires !inside(Leading(bp, i), i)
    requires Start(bp, f) <= t < bp[f] && t < i + 6 && t % 6 == 0 && inside(f, t)
    ensures t < i
  {
    if t >= i {
      assert t == i;
      LeadingIsOwner(bp, n, i);
    }
  }

  /** A hit triangle at `i` in feature `f` that had no hit yet appends `f`
      to the list, and nothing after `f` can be hit before `f`'s end. */
  lemma HitAppends(bp: seq<int>, n: int, inside: (nat, nat) -> bool, i: nat)
    requires WellFormed(bp, n) && i < n && i % 6 == 0
    requires inside(Leading(bp, i), i)
    requires !FeatureHit(bp, inside, Leading(bp, i), i)
    ensures var f := Leading(bp, i);
      HitList(bp, inside, bp[f], |bp|) == HitList(bp, inside, i, |bp|) + [f]
  {
    LeadingIsOwner(bp, n, i);
    var f := Leading(bp, i);
    var e := bp[f];
    LaterUnhit(bp, n, inside, f, e, i);
    HitListTail(bp, inside, e, f + 1, |bp|);
    HitListTail(bp, inside, i, f, |bp|);
    EarlierSettled(bp, n, inside, f, e, i);
    HitListSame(bp, inside, e, i, f);
    assert FeatureHit(bp, inside, f, e) by {
      assert Start(bp, f) <= i < bp[f] && i < e && i % 6 == 0 && inside(f, i);
    }
  }

  /** Features after `f` have no hit before the end of `f`'s run. */
  lemma LaterUnhit(bp: seq<int>, n: int, inside: (nat, nat) -> bool, f: nat, e: int, i: int)
    requires WellFormed(bp, n) && f < |bp| && e == bp[f] && i <= e
    ensures forall g :: f < g < |bp| ==> !FeatureHit(bp, inside, g, e) && !FeatureHit(bp, inside, g, i)
  {
    forall g | f < g < |bp|
      ensures !FeatureHit(bp, inside, g, e) && !FeatureHit(bp, inside, g, i)
    {
      assert e <= bp[g - 1];
      NotYetStarted(bp, inside, g, e);
      NotYetStarted(bp, inside, g, i);
    }
  }

  /** Features before `f` have the same status at `i` and at `e`, when
      both lie at or after `bp[f - 1]`. */
  lemma EarlierSettled(bp: seq<int>, n: int, inside: (nat, nat) -> bool, f: nat, e: int, i: int)
    requires WellFormed(bp, n) && f < |bp| && Start(bp, f) <= i <= e
    ensures forall g :: 0 <= g < f ==> FeatureHit(bp, inside, g, e) == FeatureHit(bp, inside, g, i)
  {
    forall g | 0 <= g < f
      ensures FeatureHit(bp, inside, g, e) == FeatureHit(bp, inside, g, i)
    {
      assert bp[g] <= bp[f - 1];
      Settled(bp, inside, g, e, i);
    }
  }

  /** A feature whose run starts at or after `lim` has no hit before it. */
  lemma NotYetStarted(bp: seq<int>, inside: (nat, nat) -> bool, g: nat, lim: int)
    requires g < |bp| && Start(bp, g) >= lim
    ensures !FeatureHit(bp, inside, g, lim)
  {
  }

  /** A feature whose run ends before both limits has the same status at
      either. */
  lemma Settled(bp: seq<int>, inside: (nat, nat) -> bool, g: nat, l1: int, l2: int)
    requires g < |bp| && bp[g] <= l1 && bp[g] <= l2
    ensures FeatureHit(bp, inside, g, l1) == FeatureHit(bp, inside, g, l2)
  {
    if FeatureHit(bp, inside, g, l1) {
      var t: nat :| Start(bp, g) <= t < bp[g] && t < l1 && t % 6 == 0 && inside(g, t);
      assert t < l2;
    }
    if FeatureHit(bp, inside, g, l2) {
      var t: nat :| Start(bp, g) <= t < bp[g] && t < l2 && t % 6 == 0 && inside(g, t);
      assert t < l1;
    }
  }

  /** The scan's loop invariant at the top of an iteration: `i` is a
      triangle boundary, `featureIndex` the feature of the previous
      triangle, the hits so far are exactly the features hit before `i`,
      and the current feature has no hit yet unless its run is done. */
  ghost predicate ScanState(bp: seq<int>, n: int, inside: (nat, nat) -> bool, i: int, featureIndex: nat, hits: seq<nat>)
  {
    WellFormed(bp, n) &&
    0 <= i <= n && i % 6 == 0 &&
    featureIndex == Leading(bp, i - 6) &&
    hits == HitList(bp, inside, i, |bp|) &&
    (featureIndex < |bp| && FeatureHit(bp, inside, featureIndex, i) ==> i >= bp[featureIndex])
  }

  lemma ScanStart(bp: seq<int>, n: int, inside: (nat, nat) -> bool)
    requires WellFormed(bp, n)
    ensures ScanState(bp, n, inside, 0, 0, [])
  {
    HitListTail(bp, inside, 0, 0, |bp|);
  }

  /** The `i >= breakpoints[featureIndex]` step lands on the feature that
      owns triangle `i`, which has no hit before `i`. */
  lemma CheckStep(bp: seq<int>, n: int, inside: (nat, nat) -> bool, i: int, featureIndex: nat)
    requires WellFormed(bp, n) && 0 <= i < n && i % 6 == 0 && featureIndex == Leading(bp, i - 6)
    requires featureIndex < |bp| && FeatureHit(bp, inside, featureIndex, i) ==> i >= bp[featureIndex]
    ensures var f := if featureIndex < |bp| && i >= bp[featureIndex] then featureIndex + 1 else featureIndex;
      f == Leading(bp, i) && f < |bp| && Start(bp, f) <= i < bp[f] && !FeatureHit(bp, inside, f, i)
  {
    LeadingStep(bp, n, i);
    LeadingIsOwner(bp, n, i);
    var f := Leading(bp, i);
    if f != featureIndex {
      assert featureIndex < |bp| && i - 6 < bp[featureIndex] <= i;
      SameBoundary(bp[featureIndex], i);
      NotYetStarted(bp, inside, f, i);
    }
  }

  /** A hit at `i` reports the feature and moves to the end of its run. */
  lemma HitStep(bp: seq<int>, n: int, inside: (nat, nat) -> bool, i: nat, f: nat, hits: seq<nat>)
    requires WellFormed(bp, n) && i < n && i % 6 == 0
    requires f == Leading(bp, i) && f < |bp| && hits == HitList(bp, inside, i, |bp|)
    requires inside(f, i) && !FeatureHit(bp, inside, f, i)
    ensures i < bp[f] && ScanState(bp, n, inside, bp[f], f, hits + [f])
  {
    HitAppends(bp, n, inside, i);
    LeadingIsOwner(bp, n, i);
    LeadingBeforeEnd(bp, n, f);
    assert bp[f] <= n by {
      if f < |bp| - 1 {
        assert bp[f] < bp[|bp| - 1];
      }
    }
  }

  /** A miss at `i` moves on one triangle with nothing reported. */
  lemma MissStep(bp: seq<int>, n: int, inside: (nat, nat) -> bool, i: nat, f: nat, hits: seq<nat>)
    requires WellFormed(bp, n) && i < n && i % 6 == 0
    requires f == Leading(bp, i) && f < |bp| && hits == HitList(bp, inside, i, |bp|)
    requires !inside(f, i) && !FeatureHit(bp, inside, f, i)
    ensures ScanState(bp, n, inside, i + 6, f, hits)
  {
    MissKeepsHits(bp, n, inside, i);
    HitListSame(bp, inside, i + 6, i, |bp|);
  }

  /** The scan shared by `_getLinesAtPosition` and `_getPolygonAtPosition`:
      walk the triangles, advancing the feature index at each run end; on
      a hit, report the feature and jump to the end of its run. The result
      is every feature with some triangle holding the position, each once,
      in feature order. */
  method ScanTriangles(bp: seq<int>, n: int, inside: (nat, nat) -> bool) returns (hits: seq<nat>)
    requires WellFormed(bp, n)
    ensures hits == HitList(bp, inside, n, |bp|)
  {
    var featureIndex := 0;
    hits := [];
    var i := 0;
    ScanStart(bp, n, inside);
    while i < n
      invariant ScanState(bp, n, inside, i, featureIndex, hits)
      decreases n - i
    {
      CheckStep(bp, n, inside, i, featureIndex);
      if featureIndex < |bp| && i >= bp[featureIndex] {
        featureIndex := featureIndex + 1;
      }
      if inside(featureIndex, i) {
        HitStep(bp, n, inside, i, featureIndex, hits);
        hits := hits + [featureIndex];
        i := bp[featureIndex] - 6;
      } else {
        MissStep(bp, n, inside, i, featureIndex, hits);
      }
      i := i + 6;
    }
  }

  /** The triangle at coordinate `t` of a vertex array. */
  function Triangle(vertices: seq<real>, t: nat): (Point, Point, Point)
    requires t + 6 <= |vertices|
  {
    (Point(vertices[t], vertices[t + 1]), Point(vertices[t + 2], vertices[t + 3]), Point(vertices[t + 4], vertices[t + 5]))
  }

  /** Whether triangle `t` of a polygon holds `p`, by `pointInTriangle` as
      written. */
  predicate PolygonTriangle(p: Point, vertices: seq<real>, t: nat)
  {
    t + 6 <= |vertices| &&
    var (v1, v2, v3) := Triangle(vertices, t);
    PointInTriangleAsWritten(p, v1, v2, v3)
  }

  /** The same with the corrected triangle test. */
  predicate PolygonTriangleCorrected(p: Point, vertices: seq<real>, t: nat)
  {
    t + 6 <= |vertices| &&
    var (v1, v2, v3) := Triangle(vertices, t);
    PointInTriangle(p, v1, v2, v3)
  }

  /** Whether triangle `t` of line feature `f` holds `p` once its vertices
      are pushed along their normals by the capped, scaled line width, by
      `pointInTriangle` as written. */
  predicate LineTriangle(p: Point, vertices: seq<real>, normals: seq<real>, widthScale: real, width: nat -> real, f: nat, t: nat)
  {
    var s := LineRadius(width(f), widthScale);
    t + 6 <= |vertices| && t + 6 <= |normals| &&
    PointInTriangleAsWritten(p,
      Point(vertices[t] + normals[t] * s, vertices[t + 1] + normals[t + 1] * s),
      Point(vertices[t + 2] + normals[t + 2] * s, vertices[t + 3] + normals[t + 3] * s),
      Point(vertices[t + 4] + normals[t + 4] * s, vertices[t + 5] + normals[t + 5] * s))
  }

  /** The discrepancy at the level of the scan: one polygon feature made of
      the clockwise triangle (0,0), (0,2), (2,0). The position (1,0) on its
      edge is not reported as written, and is reported with the corrected
      test. */
  lemma AsWrittenPolygonScanMissesEdge()
    ensures var p, vs := Point(1.0, 0.0), [0.0, 0.0, 0.0, 2.0, 2.0, 0.0];
      HitList([6], (f: nat, t: nat) => PolygonTriangle(p, vs, t), 6, 1) == [] &&
      HitList([6], (f: nat, t: nat) => PolygonTriangleCorrected(p, vs, t), 6, 1) == [0]
  {
    var p, vs := Point(1.0, 0.0), [0.0, 0.0, 0.0, 2.0, 2.0, 0.0];
    EdgeTriangleTests();
    SingleTriangleHitList((f: nat, t: nat) => PolygonTriangle(p, vs, t));
    SingleTriangleHitList((f: nat, t: nat) => PolygonTriangleCorrected(p, vs, t));
  }

  lemma EdgeTriangleTests()
    ensures var p, vs := Point(1.0, 0.0), [0.0, 0.0, 0.0, 2.0, 2.0, 0.0];
      !PolygonTriangle(p, vs, 0) && PolygonTriangleCorrected(p, vs, 0)
  {
    var vs := [0.0, 0.0, 0.0, 2.0, 2.0, 0.0];
    assert Triangle(vs, 0) == (Point(0.0, 0.0), Point(0.0, 2.0), Point(2.0, 0.0));
    AsWrittenMissesClockwiseEdge();
  }

  /** One feature of one triangle is listed exactly when that triangle
      holds the position. */
  lemma SingleTriangleHitList(inside: (nat, nat) -> bool)
    ensures HitList([6], inside, 6, 1) == if inside(0, 0) then [0] else []
  {
    if FeatureHit([6], inside, 0, 6) {
      var t: nat :| 0 <= t < 6 && t % 6 == 0 && inside(0, t);
      assert t == 0;
    }
    if inside(0, 0) {
      assert FeatureHit([6], inside, 0, 6);
    }
  }

  /** `_getPolygonAtPosition`. */
  method PolygonsAtPosition(p: Point, vertices: seq<real>, bp: seq<int>) returns (hits: seq<nat>)
    requires WellFormed(bp, |vertices|)
    ensures hits == HitList(bp, (f: nat, t: nat) => PolygonTriangle(p, vertices, t), |vertices|, |bp|)
  {
    hits := ScanTriangles(bp, |vertices|, (f: nat, t: nat) => PolygonTriangle(p, vertices, t));
  }

  /** `_getLinesAtPosition`. */
  method LinesAtPosition(p: Point, vertices: seq<real>, normals: seq<real>, bp: seq<int>, widthScale: real, width: nat -> real)
    returns (hits: seq<nat>)
    requires WellFormed(bp, |vertices|)
    ensures hits == HitList(bp, (f: nat, t: nat) => LineTriangle(p, vertices, normals, widthScale, width, f, t), |vertices|, |bp|)
  {
    hits := ScanTriangles(bp, |vertices|, (f: nat, t: nat) => LineTriangle(p, vertices, normals, widthScale, width, f, t));
  }
}
