# AoCCaravan trade-route calculator, modelled in Dafny

AoCCaravan is a route-planning aid for a trading game. It works in three steps:

1. It draws a fixed world map with one marker per settlement.
2. The user picks a start and an end settlement and enters the cargo they carry, one count per rarity tier.
3. It reports the route's length and an estimate of the trade profit.

This project models the logic behind that in Dafny 4.11 and proves properties of it:

- **Route selection (`CityMap`).** A start/end selection with click and clear handlers and marker colours. A saved selection is restored by city id.
- **Profit estimate (`CityMap`).** The distance times a per-tier weighted sum of the cargo counts, with a 1.2× long-haul bonus.
- **Cargo panel (`CargoInput`).** It reads a typed count with `parseInt`, clamps it at zero and rewrites one tier's slot. The "−" and "+" buttons go through the same handler.
- **World→screen projection (`CoordinateTransform`).** It maps a fixed world bounding box onto the map's pixels. The map has fractional borders and a flipped vertical axis.
- **Distance (`DistanceCalculator`).** A 3D distance in kilometres, and the choice between metres and kilometres for display.
- **Application shell (`App`).** It fits the map into the viewport at a fixed aspect ratio and holds the literal registry of 17 settlements.

Each source file is one module. `Types` holds the shared vocabulary from src/types/city.ts, and `Wrappers` holds `Option`.

Numbers are exact `real`s. Dafny's reals have no square root. A distance is therefore never computed: it is any `d` with `IsRoot(d, x)`, meaning `0 <= d && d * d == x`, where `x` is the squared distance the source hands to `Math.sqrt`. The operations that consume a distance take it as a parameter constrained this way.

Three claims made about the system disagree with the code; the model follows the code:

- **Distance of the Halcyon–New Aela route.** A figure of about 580 km is quoted for this route. The code divides by 10000 before taking the root, which gives about 57.3 km. `App.HalcyonToNewAela` proves `57.3 < d < 57.4`.
- **Destination point.** It is claimed that a route runs from the start's point to the end's destination point. The map component does read `endCity.destinationCoordinates`, but the `City` interface declares no such field, and no registry entry supplies one. With the registry as written, that read yields `undefined`. The next read, `.x`, then throws a TypeError: at src/components/CityMap.tsx:136 for the profit, and at src/utils/distanceCalculator.ts:12 for the distance (reached through CityMap.tsx:123-126). Both run while rendering as soon as a start and an end are chosen (CityMap.tsx:278-315). So picking an end city throws instead of showing a distance or a profit. The model's `Types.City` carries both a source and a destination point, so the route arithmetic can be stated; it does not model the throw.
- **Corrupt saved state.** It is claimed that corrupt saved state is ignored. The code passes it to `JSON.parse`, which throws (see "Left out").

## Model

| member | source | states |
|---|---|---|
| Types.Rank | src/types/city.ts:1-7 | each tier's position in the declaration order COMMON < UNCOMMON < RARE < HEROIC < EPIC, and that position indexes the tier in `AllRarities` |
| CityMap.Profit | src/components/CityMap.tsx:141-153 | definition without its own contract: the raw distance times Σ multiplier·count, times 1.2 when the raw distance is strictly over 1000000. `CityMap.CalculateProfit` is proved equal to it, and the lemmas below state its properties |
| CityMap.Multiplier | src/components/CityMap.tsx:14-20 | the multiplier table is total on the five tiers and every multiplier is positive |
| CityMap.MultiplierStrictlyIncreasing | src/components/CityMap.tsx:14-20 | a rarer tier has a strictly larger multiplier |
| CityMap.SumCargo | src/components/CityMap.tsx:141-147 | the `forEach` loop: the running total over the visited tiers equals `Accumulated`, the sum of sell price (distance × multiplier) times the count; slots the record lacks add nothing |
| CityMap.AccumulatedIsDistanceTimesValue | src/components/CityMap.tsx:141-147 | the loop's total over the five tiers equals the distance times the manifest's weighted value Σ multiplier·count |
| CityMap.CalculateProfit | src/components/CityMap.tsx:132-154 | zero when the start or end is missing; otherwise exactly `Profit`: distance × Σ multiplier·count, times 1.2 only when the distance is strictly over 1000000. The given distance is the root of the squared distance from the start's source point to the end's destination point |
| CityMap.ProfitIsFactorTimesValue | src/components/CityMap.tsx:149-153 | the profit is `RouteFactor` × value: factor 1.2·d strictly above 1000000, d at 1000000 or below; the factor is positive for a positive distance |
| CityMap.ProfitOfEmptyCargo | src/components/CityMap.tsx:141-147 | an all-zero (or empty) manifest earns 0 at any distance |
| CityMap.ProfitNonNegative | src/components/CityMap.tsx:141-153 | non-negative distance and counts give a non-negative profit |
| CityMap.CargoValueOfUpdate | src/components/CityMap.tsx:141-147 | setting one slot to k changes the value by that tier's multiplier times (k − old count), and nothing else |
| CityMap.CargoValueStrictlyIncreasing | src/components/CityMap.tsx:141-147 | raising one slot strictly raises the manifest's value |
| CityMap.ProfitFollowsCargoValue | src/components/CityMap.tsx:141-153 | over a positive distance, a manifest of higher value earns strictly more |
| CityMap.ProfitStrictlyIncreasingInCount | src/components/CityMap.tsx:141-153 | over a positive distance, profit strictly increases in every single count |
| CityMap.CargoValueOfSingleTier | src/components/CityMap.tsx:14-20 | a manifest holding n items of one tier only is worth that tier's multiplier times n |
| CityMap.ProfitHigherTierEarnsMore | src/components/CityMap.tsx:14-20 | n > 0 items of a rarer tier earn strictly more than n items of a commoner tier over the same positive distance |
| CityMap.BonusTestOnSquaredDistance | src/components/CityMap.tsx:139-149 | the bonus test `rawDistance > 1000000` on the root holds exactly when the squared distance exceeds 1000000² |
| CityMap.RawDistanceIsScaledDistance | src/components/CityMap.tsx:136-139 | the raw distance used for profit is exactly 10000 times the kilometre distance shown for the same two points |
| CityMap.RouteDistanceDisplay | src/components/CityMap.tsx:121-130 | nothing is shown exactly when the start or end is missing; otherwise the display reads back as the distance, in metres exactly when it is below 1 km |
| CityMap.MarkerColor | src/components/CityMap.tsx:115-119 | green exactly when the city's id is the start's (even if it is also the end); red exactly when it is the end's and not the start's; gray exactly when it is neither |
| CityMap.IndexOfId | src/components/CityMap.tsx:27 | the first position at or after `from` holding the id, or the length when there is none |
| CityMap.FindById | src/components/CityMap.tsx:27 | `cities.find(...) \|\| null`: none exactly when no city has the id; otherwise a city of the list with that id, preceded by none with it |
| CityMap.Restore | src/components/CityMap.tsx:23-39 | no city exactly when nothing was saved or no city in the list has the saved id; otherwise a city of the list with that id, preceded by none with it |
| CityMap.RouteSelection.constructor | src/components/CityMap.tsx:23-39 | start and end are restored independently by id |
| CityMap.RouteSelection.HandleCityClick | src/components/CityMap.tsx:97-106 | no start: the city becomes the start and the end is kept; a start but no end: the city becomes the end (even the same city) and the start is kept; both set: the city becomes the start and the end is cleared; afterwards "end set ⇒ start set" holds, from any state |
| CityMap.RouteSelection.ClearSelection | src/components/CityMap.tsx:108-113 | both ends are cleared, which satisfies "end set ⇒ start set" |
| CargoInput.DigitPrefix | src/components/CargoInput.tsx:29 | the longest leading run of decimal digits |
| CargoInput.ParseInt | src/components/CargoInput.tsx:29 | `parseInt` reduced to an optional sign and digits: no number exactly when no digit follows the sign; non-negative without a leading '-' |
| CargoInput.NumValueOfIntToString | src/components/CargoInput.tsx:29 | `parseInt(n.toString()) \|\| 0` is n for every integer n |
| CargoInput.Clamp | src/components/CargoInput.tsx:32 | `Math.max(0, n)`: n itself, or 0 for a negative n |
| CargoInput.IntToString | src/components/CargoInput.tsx:82 | `n.toString()`: non-empty, starting with '-' exactly for a negative n, and digits otherwise |
| CargoInput.NatToString | src/components/CargoInput.tsx:82 | the printed count is a non-empty digit string without leading zeros |
| CargoInput.DigitsValueOfNatToString | src/components/CargoInput.tsx:82 | a printed natural number reads back as itself |
| CargoInput.ParseIntOfIntToString | src/components/CargoInput.tsx:82 | `parseInt(n.toString())` is n for every integer n: the buttons' round trip |
| CargoInput.ParseIntExamples | src/components/CargoInput.tsx:29 | "", "abc" and "-" read as no number; "12abc" reads 12, "-7" reads −7, "+3" reads 3 |
| CargoInput.UpdatedCargo | src/components/CargoInput.tsx:28-33 | the new record has the old keys plus the tier; every other slot is unchanged; the tier's count is ≥ 0, is 0 when nothing parses, and is the clamped number otherwise |
| CargoInput.UpdatedCargoOfPrintedCount | src/components/CargoInput.tsx:82 | feeding a printed integer k through the handler stores max(0, k) |
| CargoInput.MinusAtZeroStaysZero | src/components/CargoInput.tsx:82 | "−" on a zero slot leaves the record unchanged |
| CargoInput.PlusAddsOne | src/components/CargoInput.tsx:95 | "+" raises a non-negative slot by exactly one |
| CargoInput.ButtonOnMissingSlotStoresZero | src/components/CargoInput.tsx:82-95 | either button on a slot the record lacks passes "NaN" to the handler, which stores 0 in that slot |
| CargoInput.CargoInputState.constructor | src/components/CargoInput.tsx:26 | the state starts as the initial values |
| CargoInput.CargoInputState.HandleChange | src/components/CargoInput.tsx:28-36 | the state becomes `UpdatedCargo` of the old state, and the record passed to the callback is the new state itself |
| CargoInput.CargoInputState.Decrement | src/components/CargoInput.tsx:82 | the tier's count becomes max(0, count − 1) and nothing else changes |
| CargoInput.CargoInputState.Increment | src/components/CargoInput.tsx:95 | the tier's count becomes count + 1 and nothing else changes |
| CoordinateTransform.ScreenX | src/utils/coordinateTransform.ts:24-35 | definition without its own contract: border plus the x fraction of the box times the inner width; the lemmas below state its properties |
| CoordinateTransform.ScreenY | src/utils/coordinateTransform.ts:25-37 | definition without its own contract: border plus top margin plus the flipped y fraction times the inner height; the lemmas below state its properties |
| CoordinateTransform.Project | src/utils/coordinateTransform.ts:12-40 | definition without its own contract: the screen point of `ScreenX` and `ScreenY` for a box; z is not used |
| CoordinateTransform.Transform | src/utils/coordinateTransform.ts:12-40 | definition without its own contract: `Project` on the hardcoded box of lines 18-21; `TransformInsideMap`, `TransformIgnoresElevation` and `UnprojectProject` state its properties |
| CoordinateTransform.ScreenXWithinBorders | src/utils/coordinateTransform.ts:24-35 | a world x inside the box lands in [0.08·W, W − 0.08·W] |
| CoordinateTransform.ScreenXEdges | src/utils/coordinateTransform.ts:24-35 | the box's minimum x maps to the left border, its maximum x to W minus the border |
| CoordinateTransform.ScreenXStrictlyIncreasing | src/utils/coordinateTransform.ts:35 | screen x strictly increases with world x for W > 0 |
| CoordinateTransform.ScreenYWithinBorders | src/utils/coordinateTransform.ts:25-37 | a world y inside the box lands in [borderY + topMargin, H − borderY + topMargin] |
| CoordinateTransform.ScreenYEdges | src/utils/coordinateTransform.ts:25-37 | the box's maximum y maps to the top of the drawn area, its minimum y to the bottom |
| CoordinateTransform.ScreenYStrictlyDecreasing | src/utils/coordinateTransform.ts:37 | screen y strictly decreases as world y grows for H > 0: the vertical flip |
| CoordinateTransform.ProjectInsideMap | src/utils/coordinateTransform.ts:24-37 | every point of the box is drawn inside [0, W] × [0, H] |
| CoordinateTransform.TransformIgnoresElevation | src/utils/coordinateTransform.ts:35-37 | the screen position does not depend on world z |
| CoordinateTransform.TransformInsideMap | src/utils/coordinateTransform.ts:18-37 | the hardcoded box is proper, and every point in it is drawn inside the map |
| CoordinateTransform.UnprojectProject | src/utils/coordinateTransform.ts:31-37 | the projection is invertible on x and y: unprojecting a drawn point gives back its world x and y |
| DistanceCalculator.RawDistanceSq | src/components/CityMap.tsx:136-139 | the raw squared 3D distance is non-negative |
| DistanceCalculator.DistanceSq | src/utils/distanceCalculator.ts:7-19 | the squared distance of the ÷10000-scaled points is non-negative and equals the raw squared distance divided by 10000² |
| DistanceCalculator.IsDistance | src/utils/distanceCalculator.ts:7-22 | definition without its own contract: d is `calculateDistance(a, b)` when it is the non-negative root of the ÷10000-scaled squared distance; `RootUnique` makes it a function of a and b |
| DistanceCalculator.RootUnique | src/utils/distanceCalculator.ts:21 | the non-negative square root is unique, so `IsRoot` pins down what `Math.sqrt` returns |
| DistanceCalculator.DistanceSymmetric | src/utils/distanceCalculator.ts:7-21 | d is the distance from a to b exactly when it is the distance from b to a |
| DistanceCalculator.DistanceToSelf | src/utils/distanceCalculator.ts:17-21 | the distance from a point to itself is 0 and nothing else |
| DistanceCalculator.DistanceIsRawOverScale | src/utils/distanceCalculator.ts:9-21 | d is the distance exactly when 10000·d is the root of the raw squared distance |
| DistanceCalculator.ElevationOnlyDistance | src/utils/distanceCalculator.ts:11-21 | points differing only in z are exactly \|dz\|/10000 apart |
| DistanceCalculator.FormatDistance | src/utils/distanceCalculator.ts:24-31 | metres exactly below 1 km (exactly 1 stays in km); the shown magnitude reads back as the distance (×1000 for metres); a metre reading lies in [0, 1000) for a distance in [0, 1), a km reading is ≥ 1 |
| DistanceCalculator.SuffixOfFormattedDistance | src/utils/distanceCalculator.ts:24-31 | the text ends in " meters" exactly below 1 km, and in " km" exactly from 1 km up |
| DistanceCalculator.FormatDistanceExamples | src/utils/distanceCalculator.ts:24-31 | 0.5 shows as 500 metres; 1.2345 and 1 stay in kilometres |
| App.CalculateDimensions | src/App.tsx:17-34 | width = height × 1320/900; width ≤ viewport width; height ≤ viewport height; one side equals the viewport's; the width fit is kept when its height equals the viewport height; no taller map at that ratio fits |
| App.MarkerSourceIsOriginal | src/App.tsx:65-202 | in every entry, the literal passed to `transformCoordinates` equals the literal stored as `originalCoordinates` |
| App.Cities | src/App.tsx:65-202 | 17 entries, each with its registry id and name; each marker, built from the literal passed to `transformCoordinates`, is the transform of the entry's `originalCoordinates` |
| App.RegistryIdsDistinct | src/App.tsx:65-202 | the registry's ids are pairwise distinct |
| App.RegistryInBounds | src/App.tsx:65-202 | every registry point lies inside the transform's hardcoded box |
| App.BoundsAreRegistryExtremes | src/App.tsx:129-199 | minX is Tropics Trading Post's x, maxX Djinna's x, minY Jundark Trading Post's y, maxY Brinebarrel's y |
| App.CitiesDrawnInsideMap | src/App.tsx:65-202 | on a map of positive size every registry marker is drawn inside the map |
| App.HalcyonToNewAela | src/App.tsx:66-81 | the Halcyon–New Aela distance lies between 57.3 and 57.4 km, and its raw distance earns no long-haul bonus |

## Left out

- Rendering is not modelled. This covers JSX, inline styles, the cargo panel toggle, the panel width measurement and the transition timer. It is presentation only.
- `localStorage` is not modelled, nor is `JSON.parse` of saved state. These are I/O.
  - Only the rule "find the saved id in the list, else nothing" is kept (`CityMap.Restore`).
  - Unparseable saved data would make `JSON.parse` throw.
  - A saved cargo record is neither validated nor zero-filled. This is why `Manifest` is a map that may lack a key.
- Random trade prices (`generateTradePrices`, `generateCityTrade`) are left out, because they are non-deterministic.
- The window resize listener is left out, because it is a browser event. `App.CalculateDimensions` takes the viewport size as parameters.
- IEEE-754 arithmetic is not modelled: rounding, NaN, and `Math.sqrt` precision. The model uses exact reals.
  - The order in which `Object.entries` visits the slots is taken to be the declaration order. Over reals, the order does not change the sum.
- The TypeError thrown when a route is shown is not modelled. The registry supplies no destination point, so reading `.x` of it throws during render once an end city is chosen (see above). Each model `City` has a destination point, and the distance and profit are stated for it.
- The exact digits produced by `toFixed(4)` are not modelled. `Display` records the magnitude and unit that would be printed.
- The square root is supplied, not computed. `CityMap.CalculateProfit`, `CityMap.RouteDistanceDisplay` and `App.HalcyonToNewAela` take the root as a parameter that satisfies `IsRoot`.
- CargoInput.ParseInt: does not model leading-whitespace skipping, radix prefixes or numbers too large for a double. It covers an optional sign followed by leading digits.
- CargoInput.CargoInputState.constructor: requires all five slots. On a restored record that lacks a slot, both "−" and "+" print `(undefined ± 1)`, which is "NaN", and the handler then stores 0 in that slot (`CargoInput.ButtonOnMissingSlotStoresZero`). The class's button methods are stated only for records that have all five slots.
- CityMap.RouteSelection.constructor: does not establish "end set ⇒ start set". This is deliberate: when a saved start id is no longer in the list, restoring leaves an end without a start. The first click restores the invariant.
- The settlement's `population`, `description` and `trade` fields are not modelled, because the core never reads them.
