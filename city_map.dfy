/**
 * The route logic of the map component (src/components/CityMap.tsx): the
 * per-rarity value multipliers, the profit estimate for the selected route,
 * the marker colours, the start/end selection state with its click and
 * clear handlers, the restore of a saved selection by id, and the guard in
 * front of the distance display.
 */
module CityMap {
  import opened Wrappers
  import opened Types
  import opened DistanceCalculator

  // ---------------------------------------------------------------------
  // Profit estimate
  // ---------------------------------------------------------------------

  /** `CARGO_VALUE_MULTIPLIERS`: value per world unit of distance per item carried. */
  function Multiplier(r: CargoRarity): (m: real)
    ensures 0.0 < m
  {
    match r
    case COMMON => 0.0000005496589097124300
    case UNCOMMON => 0.0000016493174106547000
    case RARE => 0.0000043985051546944500
    case HEROIC => 0.0000082501916855475800
    case EPIC => 0.0000131939027952095000
  }

  /** A rarer tier is worth strictly more per unit than a commoner one. */
  lemma MultiplierStrictlyIncreasing(lo: CargoRarity, hi: CargoRarity)
    requires Rank(lo) < Rank(hi)
    ensures Multiplier(lo) < Multiplier(hi)
  {
  }

  /** Routes strictly longer than this (raw world units) earn the long-haul bonus. */
  const BonusThreshold: real := 1000000.0
  const BonusFactor: real := 1.2

  /** The count a manifest carries for a tier; a slot the record lacks carries nothing. */
  function Amount(cargo: Manifest, r: CargoRarity): int {
    if r in cargo then cargo[r] else 0
  }

  /**
   * The running total of `calculateProfit` after it has visited the tiers
   * `rs`, in order: each adds its sell price `rawDistance * multiplier` times
   * the count the manifest carries.
   */
  function Accumulated(rawDistance: real, cargo: Manifest, rs: seq<CargoRarity>): real
    decreases |rs|
  {
    if rs == [] then 0.0
    else
      var r := rs[|rs| - 1];
      Accumulated(rawDistance, cargo, rs[..|rs| - 1]) + (rawDistance * Multiplier(r)) * (Amount(cargo, r) as real)
  }

  /** What the slot of tier `r` is worth per unit of distance. */
  function Worth(cargo: Manifest, r: CargoRarity): real {
    Multiplier(r) * (Amount(cargo, r) as real)
  }

  /** The manifest's value per unit of distance: the weighted sum of the five counts. */
  function CargoValue(cargo: Manifest): real {
    Worth(cargo, COMMON) + Worth(cargo, UNCOMMON) + Worth(cargo, RARE) + Worth(cargo, HEROIC) + Worth(cargo, EPIC)
  }

  /**
   * The profit of carrying `cargo` over a route of raw length `rawDistance`:
   * the distance times the manifest's value, times the bonus factor when the
   * route is strictly longer than the threshold.
   */
  function Profit(rawDistance: real, cargo: Manifest): real {
    var total := rawDistance * CargoValue(cargo);
    if rawDistance > BonusThreshold then total * BonusFactor else total
  }

  /** Visiting one more tier adds its sell price times its count. */
  lemma AccumulatedStep(rawDistance: real, cargo: Manifest, rs: seq<CargoRarity>, i: nat)
    requires i < |rs|
    ensures Accumulated(rawDistance, cargo, rs[..i + 1])
         == Accumulated(rawDistance, cargo, rs[..i]) + (rawDistance * Multiplier(rs[i])) * (Amount(cargo, rs[i]) as real)
  {
    assert rs[..i + 1][..i] == rs[..i];
  }

  /**
   * The loop of `calculateProfit`: for every slot the record holds, visited
   * in the order `tiers`, the sell price `rawDistance * multiplier` times the
   * count, added up.
   */
  method SumCargo(cargo: Manifest, tiers: seq<CargoRarity>, rawDistance: real) returns (total: real)
    ensures total == Accumulated(rawDistance, cargo, tiers)
  {
    total := 0.0;
    for i := 0 to |tiers|
      invariant total == Accumulated(rawDistance, cargo, tiers[..i])
    {
      var rarity := tiers[i];
      AccumulatedStep(rawDistance, cargo, tiers, i);
      // Object.entries visits only the slots the record holds
      if rarity in cargo {
        var sellPrice := rawDistance * Multiplier(rarity);
        total := total + sellPrice * (cargo[rarity] as real);
      } else {
        assert Amount(cargo, rarity) as real == 0.0;
      }
    }
    assert tiers[..|tiers|] == tiers;
  }

  /**
   * `calculateProfit`: zero unless both ends of the route are chosen;
   * otherwise the sum over the manifest followed by the long-haul bonus.
   * `rawDistance` is the value the source obtains from `Math.sqrt` on the
   * squared raw distance from the start's origin point to the end's
   * destination point.
   */
  method CalculateProfit(startCity: Option<City>, endCity: Option<City>, cargo: Manifest, rawDistance: real)
    returns (profit: real)
    requires startCity.Some? && endCity.Some? ==>
               IsRoot(rawDistance, RawDistanceSq(startCity.value.source, endCity.value.destination))
    ensures startCity.None? || endCity.None? ==> profit == 0.0
    ensures startCity.Some? && endCity.Some? ==> profit == Profit(rawDistance, cargo)
  {
    if startCity.None? || endCity.None? {
      return 0.0;
    }
    var totalProfit := SumCargo(cargo, AllRarities, rawDistance);
    AccumulatedIsDistanceTimesValue(rawDistance, cargo);
    if rawDistance > BonusThreshold {
      totalProfit := totalProfit * BonusFactor;
    }
    profit := totalProfit;
  }

  /** Distance times a five-term weighted sum, multiplied out. */
  lemma DistanceDistributes(d: real, m1: real, a1: real, m2: real, a2: real, m3: real, a3: real,
                            m4: real, a4: real, m5: real, a5: real)
    ensures (d * m1) * a1 + (d * m2) * a2 + (d * m3) * a3 + (d * m4) * a4 + (d * m5) * a5
         == d * (m1 * a1 + m2 * a2 + m3 * a3 + m4 * a4 + m5 * a5)
  {
  }

  /** The loop's total over the five tiers is the distance times the manifest's value. */
  lemma AccumulatedIsDistanceTimesValue(rawDistance: real, cargo: Manifest)
    ensures Accumulated(rawDistance, cargo, AllRarities) == rawDistance * CargoValue(cargo)
  {
    assert [COMMON][..0] == [];
    assert [COMMON, UNCOMMON][..1] == [COMMON];
    assert [COMMON, UNCOMMON, RARE][..2] == [COMMON, UNCOMMON];
    assert [COMMON, UNCOMMON, RARE, HEROIC][..3] == [COMMON, UNCOMMON, RARE];
    assert AllRarities[..4] == [COMMON, UNCOMMON, RARE, HEROIC];
    DistanceDistributes(rawDistance,
      Multiplier(COMMON), Amount(cargo, COMMON) as real, Multiplier(UNCOMMON), Amount(cargo, UNCOMMON) as real,
      Multiplier(RARE), Amount(cargo, RARE) as real, Multiplier(HEROIC), Amount(cargo, HEROIC) as real,
      Multiplier(EPIC), Amount(cargo, EPIC) as real);
  }

  /** An all-zero (or empty) manifest earns nothing, whatever the distance. */
  lemma ProfitOfEmptyCargo(rawDistance: real, cargo: Manifest)
    requires forall r :: r in cargo ==> cargo[r] == 0
    ensures Profit(rawDistance, cargo) == 0.0
  {
    assert CargoValue(cargo) == 0.0;
  }

  /** With non-negative counts and distance the profit is never negative. */
  lemma ProfitNonNegative(rawDistance: real, cargo: Manifest)
    requires 0.0 <= rawDistance
    requires forall r :: r in cargo ==> 0 <= cargo[r]
    ensures 0.0 <= Profit(rawDistance, cargo)
  {
    assert 0.0 <= CargoValue(cargo);
    ProfitIsFactorTimesValue(rawDistance, cargo);
    assert 0.0 <= RouteFactor(rawDistance);
    assert 0.0 <= RouteFactor(rawDistance) * CargoValue(cargo);
  }

  /** Setting one slot changes that slot's worth and no other. */
  lemma WorthOfUpdate(cargo: Manifest, r: CargoRarity, k: int, s: CargoRarity)
    ensures Worth(cargo[r := k], s) == if s == r then Multiplier(r) * (k as real) else Worth(cargo, s)
  {
  }

  /** Changing one slot changes the manifest's value by that tier's multiplier per item. */
  lemma CargoValueOfUpdate(cargo: Manifest, r: CargoRarity, k: int)
    ensures CargoValue(cargo[r := k]) == CargoValue(cargo) - Worth(cargo, r) + Multiplier(r) * (k as real)
  {
    WorthOfUpdate(cargo, r, k, COMMON);
    WorthOfUpdate(cargo, r, k, UNCOMMON);
    WorthOfUpdate(cargo, r, k, RARE);
    WorthOfUpdate(cargo, r, k, HEROIC);
    WorthOfUpdate(cargo, r, k, EPIC);
  }

  /** Raising one slot raises the manifest's value. */
  lemma CargoValueStrictlyIncreasing(cargo: Manifest, r: CargoRarity, k1: int, k2: int)
    requires k1 < k2
    ensures CargoValue(cargo[r := k1]) < CargoValue(cargo[r := k2])
  {
    CargoValueOfUpdate(cargo, r, k1);
    CargoValueOfUpdate(cargo, r, k2);
    MulStrictlyIncreasing(Multiplier(r), k1 as real, k2 as real);
  }

  /** p1 = f * v1 < f * v2 = p2 for a positive factor f. */
  lemma ScaledStrictOrder(p1: real, p2: real, f: real, v1: real, v2: real)
    requires p1 == f * v1 && p2 == f * v2 && 0.0 < f && v1 < v2
    ensures p1 < p2
  {
    MulStrictlyIncreasing(f, v1, v2);
  }

  lemma MulStrictlyIncreasing(c: real, a: real, b: real)
    requires 0.0 < c && a < b
    ensures c * a < c * b
  {
    assert c * b - c * a == c * (b - a);
  }

  /** What the manifest's value is multiplied by on a route: the distance, with the bonus when it applies. */
  function RouteFactor(rawDistance: real): real {
    if rawDistance > BonusThreshold then BonusFactor * rawDistance else rawDistance
  }

  lemma ProfitIsFactorTimesValue(rawDistance: real, cargo: Manifest)
    ensures Profit(rawDistance, cargo) == RouteFactor(rawDistance) * CargoValue(cargo)
    ensures 0.0 < rawDistance ==> 0.0 < RouteFactor(rawDistance)
  {
    assert (rawDistance * CargoValue(cargo)) * BonusFactor == (BonusFactor * rawDistance) * CargoValue(cargo);
  }

  /** On a route of positive length, a manifest of higher value earns strictly more. */
  lemma ProfitFollowsCargoValue(rawDistance: real, low: Manifest, high: Manifest)
    requires 0.0 < rawDistance && CargoValue(low) < CargoValue(high)
    ensures Profit(rawDistance, low) < Profit(rawDistance, high)
  {
    ProfitIsFactorTimesValue(rawDistance, low);
    ProfitIsFactorTimesValue(rawDistance, high);
    ScaledStrictOrder(Profit(rawDistance, low), Profit(rawDistance, high),
                      RouteFactor(rawDistance), CargoValue(low), CargoValue(high));
  }

  /** On a route of positive length, carrying more items of any one tier strictly raises the profit. */
  lemma ProfitStrictlyIncreasingInCount(rawDistance: real, cargo: Manifest, r: CargoRarity, k1: int, k2: int)
    requires 0.0 < rawDistance && k1 < k2
    ensures Profit(rawDistance, cargo[r := k1]) < Profit(rawDistance, cargo[r := k2])
  {
    CargoValueStrictlyIncreasing(cargo, r, k1, k2);
    ProfitFollowsCargoValue(rawDistance, cargo[r := k1], cargo[r := k2]);
  }

  /** A manifest holding a single tier is worth that tier's multiplier per item. */
  lemma CargoValueOfSingleTier(r: CargoRarity, n: int)
    ensures CargoValue(EmptyManifest[r := n]) == Multiplier(r) * (n as real)
  {
    CargoValueOfUpdate(EmptyManifest, r, n);
    assert Worth(EmptyManifest, r) == 0.0;
    assert CargoValue(EmptyManifest) == 0.0;
  }

  /** The same count of a rarer tier earns strictly more over the same positive distance. */
  lemma ProfitHigherTierEarnsMore(rawDistance: real, lo: CargoRarity, hi: CargoRarity, n: nat)
    requires 0.0 < rawDistance && 0 < n && Rank(lo) < Rank(hi)
    ensures Profit(rawDistance, EmptyManifest[lo := n]) < Profit(rawDistance, EmptyManifest[hi := n])
  {
    var low, high := EmptyManifest[lo := n], EmptyManifest[hi := n];
    CargoValueOfSingleTier(lo, n);
    CargoValueOfSingleTier(hi, n);
    MultiplierStrictlyIncreasing(lo, hi);
    MulStrictlyIncreasing(n as real, Multiplier(lo), Multiplier(hi));
    assert CargoValue(low) < CargoValue(high);
    ProfitFollowsCargoValue(rawDistance, low, high);
  }

  /** The bonus test on the root is the same as a test on the squared distance: raw > 1e6 iff raw² > 1e12. */
  lemma BonusTestOnSquaredDistance(rawDistance: real, distSq: real)
    requires IsRoot(rawDistance, distSq)
    ensures rawDistance > BonusThreshold <==> distSq > BonusThreshold * BonusThreshold
  {
    SquareStrictlyIncreasing(BonusThreshold, rawDistance);
    SquareStrictlyIncreasing(rawDistance, BonusThreshold);
  }

  /** The raw distance the profit uses is exactly 10000 times the kilometre distance shown for the route. */
  lemma RawDistanceIsScaledDistance(a: WorldPoint, b: WorldPoint, rawDistance: real, distance: real)
    requires IsRoot(rawDistance, RawDistanceSq(a, b))
    requires IsDistance(a, b, distance)
    ensures rawDistance == distance * Scale
  {
    DistanceIsRawOverScale(a, b, distance);
    RootUnique(rawDistance, distance * Scale, RawDistanceSq(a, b));
  }

  // ---------------------------------------------------------------------
  // Distance display guard
  // ---------------------------------------------------------------------

  /**
   * `calculateAndFormatDistance`: nothing (the empty string) unless both ends
   * are chosen; otherwise the formatted distance from the start's origin point
   * to the end's destination point. `distance` is the value `calculateDistance`
   * returns for those points.
   */
  function RouteDistanceDisplay(startCity: Option<City>, endCity: Option<City>, distance: real): (r: Option<Display>)
    requires startCity.Some? && endCity.Some? ==>
               IsDistance(startCity.value.source, endCity.value.destination, distance)
    ensures r.None? <==> startCity.None? || endCity.None?
    ensures r.Some? ==> DisplayedKilometers(r.value) == distance && (r.value.unit == Meters <==> distance < 1.0)
  {
    if startCity.Some? && endCity.Some? then Some(FormatDistance(distance)) else None
  }

  // ---------------------------------------------------------------------
  // Marker colours
  // ---------------------------------------------------------------------

  const StartColor: string := "#00ff00"
  const EndColor: string := "#ff0000"
  const OtherColor: string := "#808080"

  /** `city.id === startCity?.id`: an absent selection matches no city. */
  predicate SameId(city: City, selected: Option<City>) {
    selected.Some? && selected.value.id == city.id
  }

  /**
   * `getMarkerColor`: green for the start (even when it is also the end),
   * otherwise red for the end, otherwise gray.
   */
  function MarkerColor(city: City, startCity: Option<City>, endCity: Option<City>): (c: string)
    ensures c == StartColor <==> SameId(city, startCity)
    ensures c == EndColor <==> !SameId(city, startCity) && SameId(city, endCity)
    ensures c == OtherColor <==> !SameId(city, startCity) && !SameId(city, endCity)
  {
    if SameId(city, startCity) then StartColor
    else if SameId(city, endCity) then EndColor
    else OtherColor
  }

  // ---------------------------------------------------------------------
  // Restoring a saved selection
  // ---------------------------------------------------------------------

  /** The position of the first city at or after `from` whose id is `id`, or `|cities|` if there is none. */
  function IndexOfId(cities: seq<City>, id: string, from: nat): (k: nat)
    requires from <= |cities|
    ensures from <= k <= |cities|
    ensures k < |cities| ==> cities[k].id == id
    ensures forall j :: from <= j < k ==> cities[j].id != id
    decreases |cities| - from
  {
    if from == |cities| then |cities|
    else if cities[from].id == id then from
    else IndexOfId(cities, id, from + 1)
  }

  /** `cities.find(c => c.id === id) || null`: the first city with that id, if any. */
  function FindById(cities: seq<City>, id: string): (r: Option<City>)
    ensures r.Some? ==> r.value in cities && r.value.id == id
    ensures r.None? <==> (forall i :: 0 <= i < |cities| ==> cities[i].id != id)
    ensures r.Some? ==> exists k :: 0 <= k < |cities| && cities[k] == r.value &&
                          forall j :: 0 <= j < k ==> cities[j].id != id
  {
    var k := IndexOfId(cities, id, 0);
    if k < |cities| then Some(cities[k]) else None
  }

  /**
   * The city a saved id resolves to: none when nothing was saved or no city
   * has the id; otherwise the first city of the list with that id.
   */
  function Restore(cities: seq<City>, savedId: Option<string>): (r: Option<City>)
    ensures r.None? <==> savedId.None? || forall i :: 0 <= i < |cities| ==> cities[i].id != savedId.value
    ensures r.Some? ==> savedId.Some? && r.value.id == savedId.value
    ensures r.Some? ==> exists k :: 0 <= k < |cities| && cities[k] == r.value &&
                          forall j :: 0 <= j < k ==> cities[j].id != savedId.value
  {
    match savedId
    case None => None
    case Some(id) => FindById(cities, id)
  }

  // ---------------------------------------------------------------------
  // Route selection state
  // ---------------------------------------------------------------------

  /** The map component's `startCity` / `endCity` state. */
  class RouteSelection {
    var startCity: Option<City>
    var endCity: Option<City>

    /** An end is only ever chosen after a start. */
    ghost predicate Valid()
      reads this
    {
      endCity.Some? ==> startCity.Some?
    }

    /**
     * The state as restored at start-up. Start and end are looked up
     * independently, so a saved start id that the registry no longer holds
     * leaves an end without a start: this constructor does not establish
     * `Valid()`; the first click does.
     */
    constructor (cities: seq<City>, savedStartId: Option<string>, savedEndId: Option<string>)
      ensures startCity == Restore(cities, savedStartId)
      ensures endCity == Restore(cities, savedEndId)
    {
      startCity := Restore(cities, savedStartId);
      endCity := Restore(cities, savedEndId);
    }

    /**
     * `handleCityClick`: the first click picks the start, the second the end
     * (which may be the same city), and a click on a complete route starts
     * a new one. From any state, the result satisfies `Valid()`.
     */
    method HandleCityClick(city: City)
      modifies this
      ensures old(startCity).None? ==> startCity == Some(city) && endCity == old(endCity)
      ensures old(startCity).Some? && old(endCity).None? ==> startCity == old(startCity) && endCity == Some(city)
      ensures old(startCity).Some? && old(endCity).Some? ==> startCity == Some(city) && endCity.None?
      ensures Valid()
    {
      if startCity.None? {
        startCity := Some(city);
      } else if endCity.None? {
        endCity := Some(city);
      } else {
        startCity := Some(city);
        endCity := None;
      }
    }

    /** `clearSelection`: both ends are dropped. */
    method ClearSelection()
      modifies this
      ensures startCity.None? && endCity.None?
      ensures Valid()
    {
      startCity := None;
      endCity := None;
    }
  }
}
