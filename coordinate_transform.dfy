/**
 * The world-to-screen projection of src/utils/coordinateTransform.ts: a
 * fixed world bounding box is interpolated linearly onto the map's pixel
 * rectangle, inside fractional borders, with the vertical axis flipped and
 * an extra top margin; elevation is dropped.
 *
 * The projection is written for an arbitrary bounding box (`Project`) and
 * its properties are proved for every proper box; `Transform` is the
 * instance over the hardcoded world box.
 */
module CoordinateTransform {
  import opened Types

  /** The hardcoded world bounding box (the registry's extremes). */
  const MinX: real := -1974887.420323
  const MaxX: real := 63377.039789148
  const MinY: real := -1180489.317986
  const MaxY: real := 171850.471882255

  /** Border widths (8% horizontally, 13% vertically) and the extra top margin (3.33%) of the map's size. */
  function BorderX(mapWidth: real): real { mapWidth * 0.08 }
  function BorderY(mapHeight: real): real { mapHeight * 0.13 }
  function TopMargin(mapHeight: real): real { mapHeight * 0.0333 }

  /** An axis-aligned world rectangle. */
  datatype Box = Box(minX: real, maxX: real, minY: real, maxY: real)

  /** A box with a positive extent on both axes, so that interpolation divides by a non-zero span. */
  predicate Proper(box: Box) {
    box.minX < box.maxX && box.minY < box.maxY
  }

  const WorldBox: Box := Box(MinX, MaxX, MinY, MaxY)

  /** A world point inside a box (elevation unconstrained). */
  predicate InBox(p: WorldPoint, box: Box) {
    box.minX <= p.x <= box.maxX && box.minY <= p.y <= box.maxY
  }

  /** A world point inside the hardcoded bounding box. */
  predicate InBounds(p: WorldPoint) {
    InBox(p, WorldBox)
  }

  /** Where `v` lies between `lo` and `hi`, as a fraction of the span. */
  function Fraction(v: real, lo: real, hi: real): real
    requires lo < hi
  {
    (v - lo) / (hi - lo)
  }

  /** The horizontal screen position of world x: interpolated between the left and right borders. */
  function ScreenX(x: real, mapWidth: real, box: Box): real
    requires Proper(box)
  {
    var borderX := BorderX(mapWidth);
    var actualWidth := mapWidth - 2.0 * borderX;
    borderX + Fraction(x, box.minX, box.maxX) * actualWidth
  }

  /** The vertical screen position of world y: flipped, and shifted down by the top margin. */
  function ScreenY(y: real, mapHeight: real, box: Box): real
    requires Proper(box)
  {
    var borderY := BorderY(mapHeight);
    var topMargin := TopMargin(mapHeight);
    var actualHeight := mapHeight - 2.0 * borderY;
    borderY + topMargin + (actualHeight - Fraction(y, box.minY, box.maxY) * actualHeight)
  }

  /** The screen position of a world point for a given bounding box. */
  function Project(p: WorldPoint, mapWidth: real, mapHeight: real, box: Box): ScreenPoint
    requires Proper(box)
  {
    ScreenPoint(ScreenX(p.x, mapWidth, box), ScreenY(p.y, mapHeight, box))
  }

  /** `transformCoordinates`: the screen position of a world point. */
  function Transform(p: WorldPoint, mapWidth: real, mapHeight: real): ScreenPoint {
    Project(p, mapWidth, mapHeight, WorldBox)
  }

  // Small facts of real arithmetic, each proved in a context of its own.

  lemma QuotientInUnit(a: real, b: real)
    requires 0.0 < b && 0.0 <= a <= b
    ensures 0.0 <= a / b <= 1.0
  {
    var f := a / b;
    assert f * b == a;
  }

  lemma QuotientStrictlyIncreasing(a: real, c: real, b: real)
    requires 0.0 < b && a < c
    ensures a / b < c / b
  {
    var f, g := a / b, c / b;
    assert f * b == a && g * b == c;
  }

  lemma ScaleWithinSpan(t: real, span: real)
    requires 0.0 <= t <= 1.0 && 0.0 <= span
    ensures 0.0 <= t * span <= span
  {
  }

  lemma ScaleStrictlyIncreasing(t: real, u: real, span: real)
    requires t < u && 0.0 < span
    ensures t * span < u * span
  {
    assert u * span - t * span == (u - t) * span;
  }

  lemma ZeroOver(d: real)
    requires d != 0.0
    ensures 0.0 / d == 0.0
  {
  }

  lemma SelfOver(d: real)
    requires d != 0.0
    ensures d / d == 1.0
  {
  }

  lemma ScaleCancels(t: real, span: real)
    requires span != 0.0
    ensures (t * span) / span == t
  {
  }

  lemma QuotientCancels(a: real, d: real)
    requires d != 0.0
    ensures (a / d) * d == a
  {
  }

  lemma FractionInUnit(v: real, lo: real, hi: real)
    requires lo < hi && lo <= v <= hi
    ensures 0.0 <= Fraction(v, lo, hi) <= 1.0
  {
    QuotientInUnit(v - lo, hi - lo);
  }

  lemma FractionStrictlyIncreasing(u: real, v: real, lo: real, hi: real)
    requires lo < hi && u < v
    ensures Fraction(u, lo, hi) < Fraction(v, lo, hi)
  {
    QuotientStrictlyIncreasing(u - lo, v - lo, hi - lo);
  }

  /** The ends of the range are at fraction 0 and 1. */
  lemma FractionAtEnds(lo: real, hi: real)
    requires lo < hi
    ensures Fraction(lo, lo, hi) == 0.0 && Fraction(hi, lo, hi) == 1.0
  {
    var d := hi - lo;
    assert lo - lo == 0.0;
    ZeroOver(d);
    SelfOver(d);
  }

  // Properties of the horizontal axis.

  /** A world x inside the box lands between the two horizontal borders. */
  lemma ScreenXWithinBorders(x: real, mapWidth: real, box: Box)
    requires Proper(box) && box.minX <= x <= box.maxX && 0.0 < mapWidth
    ensures BorderX(mapWidth) <= ScreenX(x, mapWidth, box) <= mapWidth - BorderX(mapWidth)
  {
    FractionInUnit(x, box.minX, box.maxX);
    ScaleWithinSpan(Fraction(x, box.minX, box.maxX), mapWidth - 2.0 * BorderX(mapWidth));
  }

  /** The box's left and right edges map exactly onto the horizontal borders. */
  lemma ScreenXEdges(mapWidth: real, box: Box)
    requires Proper(box)
    ensures ScreenX(box.minX, mapWidth, box) == BorderX(mapWidth)
    ensures ScreenX(box.maxX, mapWidth, box) == mapWidth - BorderX(mapWidth)
  {
    FractionAtEnds(box.minX, box.maxX);
  }

  /** Moving east moves right on screen. */
  lemma ScreenXStrictlyIncreasing(x: real, x': real, mapWidth: real, box: Box)
    requires Proper(box) && x < x' && 0.0 < mapWidth
    ensures ScreenX(x, mapWidth, box) < ScreenX(x', mapWidth, box)
  {
    var t, t', span := Fraction(x, box.minX, box.maxX), Fraction(x', box.minX, box.maxX), mapWidth - 2.0 * BorderX(mapWidth);
    FractionStrictlyIncreasing(x, x', box.minX, box.maxX);
    ScaleStrictlyIncreasing(t, t', span);
    assert ScreenX(x, mapWidth, box) == BorderX(mapWidth) + t * span;
    assert ScreenX(x', mapWidth, box) == BorderX(mapWidth) + t' * span;
  }

  // Properties of the vertical axis.

  /** A world y inside the box lands between the vertical borders, shifted down by the top margin. */
  lemma ScreenYWithinBorders(y: real, mapHeight: real, box: Box)
    requires Proper(box) && box.minY <= y <= box.maxY && 0.0 < mapHeight
    ensures BorderY(mapHeight) + TopMargin(mapHeight) <= ScreenY(y, mapHeight, box)
    ensures ScreenY(y, mapHeight, box) <= mapHeight - BorderY(mapHeight) + TopMargin(mapHeight)
  {
    FractionInUnit(y, box.minY, box.maxY);
    ScaleWithinSpan(Fraction(y, box.minY, box.maxY), mapHeight - 2.0 * BorderY(mapHeight));
  }

  /** The box's northern edge maps to the top of the drawable area and its southern edge to the bottom. */
  lemma ScreenYEdges(mapHeight: real, box: Box)
    requires Proper(box)
    ensures ScreenY(box.maxY, mapHeight, box) == BorderY(mapHeight) + TopMargin(mapHeight)
    ensures ScreenY(box.minY, mapHeight, box) == mapHeight - BorderY(mapHeight) + TopMargin(mapHeight)
  {
    FractionAtEnds(box.minY, box.maxY);
  }

  /** Moving north moves up on screen: the vertical axis is flipped. */
  lemma ScreenYStrictlyDecreasing(y: real, y': real, mapHeight: real, box: Box)
    requires Proper(box) && y < y' && 0.0 < mapHeight
    ensures ScreenY(y, mapHeight, box) > ScreenY(y', mapHeight, box)
  {
    var t, t', span := Fraction(y, box.minY, box.maxY), Fraction(y', box.minY, box.maxY), mapHeight - 2.0 * BorderY(mapHeight);
    FractionStrictlyIncreasing(y, y', box.minY, box.maxY);
    ScaleStrictlyIncreasing(t, t', span);
    assert ScreenY(y, mapHeight, box) == BorderY(mapHeight) + TopMargin(mapHeight) + (span - t * span);
    assert ScreenY(y', mapHeight, box) == BorderY(mapHeight) + TopMargin(mapHeight) + (span - t' * span);
  }

  // The whole projection.

  /** Every point of the box is drawn inside the map rectangle [0, W] x [0, H]. */
  lemma ProjectInsideMap(p: WorldPoint, mapWidth: real, mapHeight: real, box: Box)
    requires Proper(box) && InBox(p, box) && 0.0 < mapWidth && 0.0 < mapHeight
    ensures 0.0 <= Project(p, mapWidth, mapHeight, box).x <= mapWidth
    ensures 0.0 <= Project(p, mapWidth, mapHeight, box).y <= mapHeight
  {
    ScreenXWithinBorders(p.x, mapWidth, box);
    ScreenYWithinBorders(p.y, mapHeight, box);
  }

  /** Elevation plays no part in the projection. */
  lemma TransformIgnoresElevation(p: WorldPoint, z: real, mapWidth: real, mapHeight: real)
    ensures Transform(p, mapWidth, mapHeight) == Transform(p.(z := z), mapWidth, mapHeight)
  {
  }

  /** The hardcoded world box is proper, and every in-bounds point is drawn inside the map. */
  lemma TransformInsideMap(p: WorldPoint, mapWidth: real, mapHeight: real)
    requires InBounds(p) && 0.0 < mapWidth && 0.0 < mapHeight
    ensures Proper(WorldBox)
    ensures 0.0 <= Transform(p, mapWidth, mapHeight).x <= mapWidth
    ensures 0.0 <= Transform(p, mapWidth, mapHeight).y <= mapHeight
  {
    ProjectInsideMap(p, mapWidth, mapHeight, WorldBox);
  }

  /** The world x a horizontal screen position came from: the inverse of `ScreenX`. */
  function UnprojectX(sx: real, mapWidth: real, box: Box): real
    requires 0.0 < mapWidth
  {
    var actualWidth := mapWidth - 2.0 * BorderX(mapWidth);
    box.minX + (sx - BorderX(mapWidth)) / actualWidth * (box.maxX - box.minX)
  }

  /** The world y a vertical screen position came from: the inverse of `ScreenY`. */
  function UnprojectY(sy: real, mapHeight: real, box: Box): real
    requires 0.0 < mapHeight
  {
    var actualHeight := mapHeight - 2.0 * BorderY(mapHeight);
    box.minY + (BorderY(mapHeight) + TopMargin(mapHeight) + actualHeight - sy) / actualHeight * (box.maxY - box.minY)
  }

  /**
   * The world (x, y) a screen position came from, for a map of positive size;
   * the projection loses nothing but elevation.
   */
  function Unproject(s: ScreenPoint, mapWidth: real, mapHeight: real, box: Box): (p: (real, real))
    requires 0.0 < mapWidth && 0.0 < mapHeight
  {
    (UnprojectX(s.x, mapWidth, box), UnprojectY(s.y, mapHeight, box))
  }

  lemma UnprojectScreenX(x: real, mapWidth: real, box: Box)
    requires Proper(box) && 0.0 < mapWidth
    ensures UnprojectX(ScreenX(x, mapWidth, box), mapWidth, box) == x
  {
    var t, span := Fraction(x, box.minX, box.maxX), mapWidth - 2.0 * BorderX(mapWidth);
    var sx := ScreenX(x, mapWidth, box);
    assert sx - BorderX(mapWidth) == t * span;
    ScaleCancels(t, span);
    assert (sx - BorderX(mapWidth)) / span == t;
    QuotientCancels(x - box.minX, box.maxX - box.minX);
    assert t * (box.maxX - box.minX) == x - box.minX;
  }

  lemma UnprojectScreenY(y: real, mapHeight: real, box: Box)
    requires Proper(box) && 0.0 < mapHeight
    ensures UnprojectY(ScreenY(y, mapHeight, box), mapHeight, box) == y
  {
    var t, span := Fraction(y, box.minY, box.maxY), mapHeight - 2.0 * BorderY(mapHeight);
    var sy := ScreenY(y, mapHeight, box);
    assert BorderY(mapHeight) + TopMargin(mapHeight) + span - sy == t * span;
    ScaleCancels(t, span);
    assert (BorderY(mapHeight) + TopMargin(mapHeight) + span - sy) / span == t;
    QuotientCancels(y - box.minY, box.maxY - box.minY);
    assert t * (box.maxY - box.minY) == y - box.minY;
  }

  /** Unprojecting a drawn point gives back its world x and y. */
  lemma UnprojectProject(p: WorldPoint, mapWidth: real, mapHeight: real, box: Box)
    requires Proper(box) && 0.0 < mapWidth && 0.0 < mapHeight
    ensures Unproject(Project(p, mapWidth, mapHeight, box), mapWidth, mapHeight, box) == (p.x, p.y)
  {
    UnprojectScreenX(p.x, mapWidth, box);
    UnprojectScreenY(p.y, mapHeight, box);
  }
}
