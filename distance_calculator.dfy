/**
 * The 3D distance of src/utils/distanceCalculator.ts: both points are scaled
 * from world units to kilometres (divided by 10000) and their Euclidean
 * distance, elevation included, is taken; `formatDistance` chooses between
 * metres and kilometres for display.
 *
 * Dafny's reals have no square root, so the square root that the source
 * takes is never computed here: a distance is any `d` with `IsRoot(d, x)`,
 * where `x` is the squared distance the source passes to `Math.sqrt`.
 */
module DistanceCalculator {
  import opened Types

  /** World units per kilometre. */
  const Scale: real := 10000.0

  /** `r` is the non-negative square root of `x` (what `Math.sqrt(x)` returns, exactly). */
  predicate IsRoot(r: real, x: real) {
    0.0 <= r && r * r == x
  }

  /** A non-negative square root is unique. */
  lemma RootUnique(r: real, s: real, x: real)
    requires IsRoot(r, x) && IsRoot(s, x)
    ensures r == s
  {
    SquareStrictlyIncreasing(r, s);
    SquareStrictlyIncreasing(s, r);
  }

  lemma SquareStrictlyIncreasing(r: real, s: real)
    requires 0.0 <= r && 0.0 <= s
    ensures r < s ==> r * r < s * s
  {
    if r < s {
      var rr, rs, ss := r * r, r * s, s * s;
      assert rr <= rs by { assert rs - rr == r * (s - r); }
      assert rs < ss by { assert ss - rs == s * (s - r); }
    }
  }

  /** The square of the raw (unscaled) Euclidean distance from `a` to `b`. */
  function RawDistanceSq(a: WorldPoint, b: WorldPoint): (d: real)
    ensures 0.0 <= d
  {
    var dx := b.x - a.x;
    var dy := b.y - a.y;
    var dz := b.z - a.z;
    dx * dx + dy * dy + dz * dz
  }

  /**
   * What `calculateDistance` hands to `Math.sqrt`: the squared distance of
   * the two points after each coordinate is scaled to kilometres.
   */
  function DistanceSq(a: WorldPoint, b: WorldPoint): (d: real)
    ensures 0.0 <= d
    ensures d == RawDistanceSq(a, b) / (Scale * Scale)
  {
    var x1 := a.x / Scale;
    var y1 := a.y / Scale;
    var z1 := a.z / Scale;
    var x2 := b.x / Scale;
    var y2 := b.y / Scale;
    var z2 := b.z / Scale;
    var dx := x2 - x1;
    var dy := y2 - y1;
    var dz := z2 - z1;
    ScaledSquare(a.x, b.x);
    ScaledSquare(a.y, b.y);
    ScaledSquare(a.z, b.z);
    dx * dx + dy * dy + dz * dz
  }

  /** Scaling both coordinates scales the squared difference by the square of the scale. */
  lemma ScaledSquare(u: real, v: real)
    ensures (v / Scale - u / Scale) * (v / Scale - u / Scale) == (v - u) * (v - u) / (Scale * Scale)
  {
    assert v / Scale - u / Scale == (v - u) / Scale;
  }

  /** `d` is what `calculateDistance(a, b)` returns. */
  predicate IsDistance(a: WorldPoint, b: WorldPoint, d: real) {
    IsRoot(d, DistanceSq(a, b))
  }

  /** The distance is symmetric. */
  lemma DistanceSymmetric(a: WorldPoint, b: WorldPoint, d: real)
    ensures IsDistance(a, b, d) <==> IsDistance(b, a, d)
  {
    assert RawDistanceSq(a, b) == RawDistanceSq(b, a);
  }

  /** A point is at distance zero from itself, and at no other distance. */
  lemma DistanceToSelf(a: WorldPoint, d: real)
    ensures IsDistance(a, a, d) <==> d == 0.0
  {
    assert DistanceSq(a, a) == 0.0;
    if IsDistance(a, a, d) {
      RootUnique(d, 0.0, 0.0);
    }
  }

  /** The kilometre distance is the raw Euclidean distance divided by the scale. */
  lemma DistanceIsRawOverScale(a: WorldPoint, b: WorldPoint, d: real)
    ensures IsDistance(a, b, d) <==> IsRoot(d * Scale, RawDistanceSq(a, b))
  {
    var raw := RawDistanceSq(a, b);
    assert DistanceSq(a, b) * (Scale * Scale) == raw;
    assert (d * Scale) * (d * Scale) == (d * d) * (Scale * Scale);
  }

  /** Elevation counts: points that differ only in height are |dz| / 10000 apart. */
  lemma ElevationOnlyDistance(a: WorldPoint, b: WorldPoint, d: real)
    requires a.x == b.x && a.y == b.y
    ensures IsDistance(a, b, d) <==> d == Abs(b.z - a.z) / Scale
  {
    var e := Abs(b.z - a.z) / Scale;
    assert RawDistanceSq(a, b) == Abs(b.z - a.z) * Abs(b.z - a.z);
    assert e * e == Abs(b.z - a.z) * Abs(b.z - a.z) / (Scale * Scale);
    assert IsDistance(a, b, e);
    if IsDistance(a, b, d) {
      RootUnique(d, e, DistanceSq(a, b));
    }
  }

  function Abs(v: real): real {
    if v < 0.0 then -v else v
  }

  /** The unit `formatDistance` chooses. */
  datatype DistanceUnit = Meters | Kilometers

  /**
   * A formatted distance: the magnitude printed and its unit. The source
   * prints the magnitude with `toFixed(4)`; the digits are not modelled.
   */
  datatype Display = Display(magnitude: real, unit: DistanceUnit)

  /** The text that follows the printed magnitude. */
  function Suffix(u: DistanceUnit): string {
    match u
    case Meters => " meters"
    case Kilometers => " km"
  }

  /** Reading a display back as kilometres: the inverse of `FormatDistance`. */
  function DisplayedKilometers(r: Display): real {
    match r.unit
    case Meters => r.magnitude / 1000.0
    case Kilometers => r.magnitude
  }

  /**
   * `formatDistance`: below one kilometre the distance is shown in metres,
   * from one kilometre up (1 included) in kilometres; the value shown always
   * reads back as the distance given.
   */
  function FormatDistance(distance: real): (r: Display)
    ensures r.unit == Meters <==> distance < 1.0
    ensures DisplayedKilometers(r) == distance
    ensures 0.0 <= distance < 1.0 ==> 0.0 <= r.magnitude < 1000.0
    ensures 1.0 <= distance ==> 1.0 <= r.magnitude
  {
    if distance < 1.0 then Display(distance * 1000.0, Meters) else Display(distance, Kilometers)
  }

  /** The printed text ends in " meters" exactly for a distance below one kilometre, and in " km" otherwise. */
  lemma SuffixOfFormattedDistance(distance: real)
    ensures Suffix(FormatDistance(distance).unit) == " meters" <==> distance < 1.0
    ensures Suffix(FormatDistance(distance).unit) == " km" <==> 1.0 <= distance
  {
  }

  /** The worked examples: half a kilometre is 500 metres; 1.2345 stays in kilometres, as does exactly 1. */
  lemma FormatDistanceExamples()
    ensures FormatDistance(0.5) == Display(500.0, Meters)
    ensures FormatDistance(1.2345) == Display(1.2345, Kilometers)
    ensures FormatDistance(1.0) == Display(1.0, Kilometers)
  {
  }
}
