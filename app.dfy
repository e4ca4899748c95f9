/**
 * The application shell (src/App.tsx): the map is fitted into the viewport
 * at a fixed aspect ratio, and the registry of cities is a literal table
 * whose world points are projected onto the fitted map.
 */
module App {
  import opened Types
  import opened CoordinateTransform
  import opened DistanceCalculator
  import opened CityMap

  // ---------------------------------------------------------------------
  // Fitting the map into the viewport
  // ---------------------------------------------------------------------

  /** `MAP_ASPECT_RATIO`: width over height of the original 1320 x 900 map. */
  const MapAspectRatio: real := 1320.0 / 900.0

  /** A map of this height, at the fixed aspect ratio, fits in the viewport. */
  predicate FitsViewport(height: real, viewportWidth: real, viewportHeight: real) {
    height * MapAspectRatio <= viewportWidth && height <= viewportHeight
  }

  /**
   * `calculateDimensions`: fit to the viewport's width first, and to its
   * height when the width-fit map would be strictly too tall. The result
   * keeps the aspect ratio, fits the viewport, touches it on one side, and
   * is the largest map that does so.
   */
  method CalculateDimensions(viewportWidth: real, viewportHeight: real) returns (width: real, height: real)
    ensures width == height * MapAspectRatio
    ensures width <= viewportWidth && height <= viewportHeight
    ensures width == viewportWidth || height == viewportHeight
    ensures viewportWidth / MapAspectRatio <= viewportHeight ==> width == viewportWidth
    ensures forall h :: FitsViewport(h, viewportWidth, viewportHeight) ==> h <= height
  {
    width := viewportWidth;
    height := width / MapAspectRatio;
    if height > viewportHeight {
      height := viewportHeight;
      width := height * MapAspectRatio;
    }
  }

  // ---------------------------------------------------------------------
  // The city registry
  // ---------------------------------------------------------------------

  /**
   * A registry entry as written: id, display name, the world point passed
   * to `transformCoordinates` for the marker, and the world point stored as
   * `originalCoordinates`. The source writes the two points as separate
   * literals. No entry carries a destination point; trade prices are
   * generated at random and are not part of this model.
   */
  datatype Settlement = Settlement(id: string, name: string, markerSource: WorldPoint, originalCoordinates: WorldPoint)

  /** A registry entry together with its projected marker position (`coordinates`). */
  datatype PlacedCity = PlacedCity(id: string, name: string, coordinates: ScreenPoint, originalCoordinates: WorldPoint)

  const Registry: seq<Settlement> := [
    Settlement("halcyon", "Halcyon",
      WorldPoint(-884751.499392000, -325649.112187000000, 11824.72745300000),
      WorldPoint(-884751.499392000, -325649.112187000000, 11824.72745300000)),
    Settlement("new-aela", "New Aela",
      WorldPoint(-1130812.407337000, -843312.073625000000, 14019.45910100000),
      WorldPoint(-1130812.407337000, -843312.073625000000, 14019.45910100000)),
    Settlement("joeva", "Joeva",
      WorldPoint(-1087379.008970000, -513361.741606000000, 14094.10331900000),
      WorldPoint(-1087379.008970000, -513361.741606000000, 14094.10331900000)),
    Settlement("winstead", "Winstead",
      WorldPoint(-634673.584447000, -372780.083735000000, 14269.98790700000),
      WorldPoint(-634673.584447000, -372780.083735000000, 14269.98790700000)),
    Settlement("miraleth", "Miraleth",
      WorldPoint(-475615.671719000, -574470.865970000000, 11168.55352100000),
      WorldPoint(-475615.671719000, -574470.865970000000, 11168.55352100000)),
    Settlement("aithanahr", "Aithanahr",
      WorldPoint(-259920.177304000, -751638.912231000000, 6846.93269800000),
      WorldPoint(-259920.177304000, -751638.912231000000, 6846.93269800000)),
    Settlement("azmaran", "Azmaran",
      WorldPoint(-268302.455695000, -989209.595577000000, 9484.75534100000),
      WorldPoint(-268302.455695000, -989209.595577000000, 9484.75534100000)),
    Settlement("sunhaven", "Sunhaven",
      WorldPoint(-623148.978528000, -863431.096719000000, 14331.35023900000),
      WorldPoint(-623148.978528000, -863431.096719000000, 14331.35023900000)),
    Settlement("djinna", "Djinna",
      WorldPoint(63377.039789148, -861186.586615326000, 6767.22937500000),
      WorldPoint(63377.039789148, -861186.586615326000, 6767.22937500000)),
    Settlement("squalls-end", "Squall's End",
      WorldPoint(-47680.406512000, -1134380.725584000000, 16982.22188100000),
      WorldPoint(-47680.406512000, -1134380.725584000000, 16982.22188100000)),
    Settlement("jundark-trading-post", "Jundark Trading Post",
      WorldPoint(-1483331.434872000, -1180489.317986000000, 7268.38626800000),
      WorldPoint(-1483331.434872000, -1180489.317986000000, 7268.38626800000)),
    Settlement("tropics-trading-post", "Tropics Trading Post",
      WorldPoint(-1974887.420323000, -36751.314912000000, 4622.15253000000),
      WorldPoint(-1974887.420323000, -36751.314912000000, 4622.15253000000)),
    Settlement("windansea", "Windansea",
      WorldPoint(-1100678.269613270, -246478.207851110000, 7050.00000000000),
      WorldPoint(-1100678.269613270, -246478.207851110000, 7050.00000000000)),
    Settlement("seahook", "Seahook",
      WorldPoint(-1764306.601345460, -539249.759503641000, 7252.22181100000),
      WorldPoint(-1764306.601345460, -539249.759503641000, 7252.22181100000)),
    Settlement("shorefoot", "Shorefoot",
      WorldPoint(-1372667.846502820, -57352.728025698100, 4460.00000000000),
      WorldPoint(-1372667.846502820, -57352.728025698100, 4460.00000000000)),
    Settlement("korrin", "Korrin",
      WorldPoint(-1764272.320962990, -114492.455202844000, 7252.22181100000),
      WorldPoint(-1764272.320962990, -114492.455202844000, 7252.22181100000)),
    Settlement("brinebarrel", "Brinebarrel",
      WorldPoint(-1861019.666082260, 171850.471882255000, 7252.22181100000),
      WorldPoint(-1861019.666082260, 171850.471882255000, 7252.22181100000))
  ]

  /** In every entry, the point the marker is projected from is the entry's stored world point. */
  lemma MarkerSourceIsOriginal()
    ensures forall i :: 0 <= i < |Registry| ==> Registry[i].markerSource == Registry[i].originalCoordinates
  {
  }

  /**
   * The `cities` array for a map of the given size. Each marker is projected
   * from the literal passed to `transformCoordinates`; the contract states
   * that this is the projection of the entry's own `originalCoordinates`.
   */
  function Cities(mapWidth: real, mapHeight: real): (cs: seq<PlacedCity>)
    ensures |cs| == |Registry|
    ensures forall i :: 0 <= i < |cs| ==>
              cs[i].id == Registry[i].id && cs[i].name == Registry[i].name &&
              cs[i].originalCoordinates == Registry[i].originalCoordinates &&
              cs[i].coordinates == Transform(Registry[i].originalCoordinates, mapWidth, mapHeight)
  {
    MarkerSourceIsOriginal();
    seq(|Registry|, i requires 0 <= i < |Registry| =>
      var s := Registry[i];
      PlacedCity(s.id, s.name, Transform(s.markerSource, mapWidth, mapHeight), s.originalCoordinates))
  }

  /** No two registry entries share an id, so a saved id names at most one city. */
  lemma RegistryIdsDistinct()
    ensures forall i, j :: 0 <= i < j < |Registry| ==> Registry[i].id != Registry[j].id
  {
  }

  /** Every registry point lies inside the transform's hardcoded bounding box. */
  lemma RegistryInBounds()
    ensures forall i :: 0 <= i < |Registry| ==> InBounds(Registry[i].originalCoordinates)
  {
  }

  /** The bounding box is exactly the registry's extremes: each bound is attained by a named entry. */
  lemma BoundsAreRegistryExtremes()
    ensures Registry[11].id == "tropics-trading-post" && Registry[11].originalCoordinates.x == MinX
    ensures Registry[8].id == "djinna" && Registry[8].originalCoordinates.x == MaxX
    ensures Registry[10].id == "jundark-trading-post" && Registry[10].originalCoordinates.y == MinY
    ensures Registry[16].id == "brinebarrel" && Registry[16].originalCoordinates.y == MaxY
  {
  }

  /** On a map of positive size, every registry marker is drawn inside the map. */
  lemma CitiesDrawnInsideMap(mapWidth: real, mapHeight: real)
    requires 0.0 < mapWidth && 0.0 < mapHeight
    ensures forall i :: 0 <= i < |Registry| ==>
              0.0 <= Cities(mapWidth, mapHeight)[i].coordinates.x <= mapWidth &&
              0.0 <= Cities(mapWidth, mapHeight)[i].coordinates.y <= mapHeight
  {
    RegistryInBounds();
    forall i | 0 <= i < |Registry|
      ensures 0.0 <= Cities(mapWidth, mapHeight)[i].coordinates.x <= mapWidth
      ensures 0.0 <= Cities(mapWidth, mapHeight)[i].coordinates.y <= mapHeight
    {
      TransformInsideMap(Registry[i].originalCoordinates, mapWidth, mapHeight);
    }
  }

  /**
   * The Halcyon to New Aela route: about 57.3 km, a raw distance below the
   * long-haul threshold.
   */
  lemma HalcyonToNewAela(distance: real, rawDistance: real)
    requires IsDistance(Registry[0].originalCoordinates, Registry[1].originalCoordinates, distance)
    requires IsRoot(rawDistance, RawDistanceSq(Registry[0].originalCoordinates, Registry[1].originalCoordinates))
    ensures 57.3 < distance < 57.4
    ensures rawDistance <= BonusThreshold
  {
    var a, b := Registry[0].originalCoordinates, Registry[1].originalCoordinates;
    assert 57.3 * 57.3 < DistanceSq(a, b) < 57.4 * 57.4;
    SquareStrictlyIncreasing(distance, 57.3);
    SquareStrictlyIncreasing(57.4, distance);
    BonusTestOnSquaredDistance(rawDistance, RawDistanceSq(a, b));
  }
}
