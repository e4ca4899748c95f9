/**
 * The shared vocabulary of the trade-route helper (src/types/city.ts):
 * cargo rarity tiers, world and screen points, the city record and the
 * cargo manifest.
 */
module Types {

  /** The closed enumeration of cargo rarity tiers, in declaration order. */
  datatype CargoRarity = COMMON | UNCOMMON | RARE | HEROIC | EPIC

  /** Every rarity, in the order in which the source record lists them. */
  const AllRarities: seq<CargoRarity> := [COMMON, UNCOMMON, RARE, HEROIC, EPIC]

  /** Position of a tier in the rarity order COMMON < UNCOMMON < RARE < HEROIC < EPIC. */
  function Rank(r: CargoRarity): (k: nat)
    ensures k < |AllRarities| && AllRarities[k] == r
  {
    match r
    case COMMON => 0
    case UNCOMMON => 1
    case RARE => 2
    case HEROIC => 3
    case EPIC => 4
  }

  /** A point in the game's world space (engine units); `z` is elevation. */
  datatype WorldPoint = WorldPoint(x: real, y: real, z: real)

  /** A pixel position relative to the rendered map's top-left corner. */
  datatype ScreenPoint = ScreenPoint(x: real, y: real)

  /**
   * A city as the route selection and the profit estimator see it: its id,
   * the point used when it is a route's origin (`originalCoordinates` in the
   * source) and the point used when it is a route's target
   * (`destinationCoordinates`).
   *
   * The `City` interface of src/types/city.ts declares no destination point,
   * and none of the registry entries in src/App.tsx supplies one; the map
   * component nevertheless reads `endCity.destinationCoordinates`. The model
   * keeps both points so that the route arithmetic can be stated. In the
   * program as shown the destination read yields `undefined`, and the next
   * property read on it (`.x` at src/components/CityMap.tsx:136, and at
   * src/utils/distanceCalculator.ts:12 through CityMap.tsx:123-126) throws a
   * TypeError. Both reads happen while rendering once a start and an end are
   * chosen (CityMap.tsx:278-315), so picking an end city throws instead of
   * showing a distance or a profit. The model does not capture that throw.
   */
  datatype City = City(id: string, source: WorldPoint, destination: WorldPoint)

  /**
   * A cargo manifest: the count carried per rarity. The source's
   * `Record<CargoRarity, number>` is a map here; a manifest restored from
   * storage is not validated, so a key may be missing.
   */
  type Manifest = map<CargoRarity, int>

  /** All five rarities have a slot. */
  predicate Complete(m: Manifest) {
    forall r: CargoRarity :: r in m
  }

  /** The manifest a fresh session starts with: every slot zero. */
  const EmptyManifest: Manifest := map[COMMON := 0, UNCOMMON := 0, RARE := 0, HEROIC := 0, EPIC := 0]
}
