/** The simulated satellite and weather helpers (utils/satellite_data.py): the mining-impact
    term, the water-colour label, the closest-river search, the rainfall simulation and the
    arithmetic of the simulated satellite reading. Random draws and the month are parameters;
    the Euclidean distances to the four impact hotspots are supplied by the caller. */
module SatelliteData {
  import opened Common

  // ---------------------------------------------------------------------------
  // Mining impact
  // ---------------------------------------------------------------------------

  /** A hotspot of the impact model: where it is and how intense it is. */
  datatype ImpactHotspot = ImpactHotspot(location: Point, intensity: real)

  /** Dunkwa-on-Offin, Akwatia, Prestea and Jacobu. */
  const ImpactHotspots: seq<ImpactHotspot> := [
    ImpactHotspot(Point(5.650, -1.100), 0.9),
    ImpactHotspot(Point(6.250, -1.150), 0.8),
    ImpactHotspot(Point(5.300, -2.350), 0.7),
    ImpactHotspot(Point(6.200, -1.850), 0.6)
  ]

  /** The radius (degrees) within which a hotspot contributes. */
  const ImpactRadius: real := 0.3

  /** `dists[i]` is the distance from the query point to `ImpactHotspots[i]`. */
  predicate ImpactDistances(dists: seq<real>)
  {
    |dists| == |ImpactHotspots| && forall i | 0 <= i < |dists| :: dists[i] >= 0.0
  }

  /** What hotspot `i` contributes at distance `d` when it is in range. */
  function ImpactTerm(i: nat, d: real): real
    requires i < |ImpactHotspots|
  {
    ImpactHotspots[i].intensity * (1.0 - d / ImpactRadius)
  }

  lemma ImpactIntensitiesBounded()
    ensures forall i | 0 <= i < |ImpactHotspots| :: 0.0 <= ImpactHotspots[i].intensity <= 0.9
  {
  }

  /** The running maximum after the first `n` hotspots, starting from 0. */
  function ImpactUpTo(dists: seq<real>, n: nat): (m: real)
    requires ImpactDistances(dists)
    requires n <= |ImpactHotspots|
    ensures 0.0 <= m <= 0.9
    ensures forall i | 0 <= i < n && dists[i] < ImpactRadius :: ImpactTerm(i, dists[i]) <= m
    ensures m == 0.0 || exists i | 0 <= i < n :: dists[i] < ImpactRadius && m == ImpactTerm(i, dists[i])
  {
    if n == 0 then 0.0
    else
      var m := ImpactUpTo(dists, n - 1);
      ImpactIntensitiesBounded();
      if dists[n - 1] < ImpactRadius then Max(m, ImpactTerm(n - 1, dists[n - 1])) else m
  }

  /** The mining impact at a point: the largest, over the hotspots strictly within 0.3
      degrees, of intensity * (1 - d / 0.3); 0 when none is in range; never above 0.9. */
  function MiningImpact(dists: seq<real>): (m: real)
    requires ImpactDistances(dists)
    ensures 0.0 <= m <= 0.9
    ensures forall i | 0 <= i < |dists| && dists[i] < ImpactRadius :: ImpactTerm(i, dists[i]) <= m
    ensures m == 0.0 || exists i | 0 <= i < |dists| :: dists[i] < ImpactRadius && m == ImpactTerm(i, dists[i])
  {
    ImpactUpTo(dists, |ImpactHotspots|)
  }

  /** No hotspot in range means no impact. */
  lemma NoImpactOutOfRange(dists: seq<real>)
    requires ImpactDistances(dists)
    requires forall i | 0 <= i < |dists| :: dists[i] >= ImpactRadius
    ensures MiningImpact(dists) == 0.0
  {
  }

  /** The source's loop over the hotspots, keeping the running maximum. */
  method CalculateMiningImpact(dists: seq<real>) returns (maxImpact: real)
    requires ImpactDistances(dists)
    ensures maxImpact == MiningImpact(dists)
  {
    maxImpact := 0.0;
    var i := 0;
    while i < |ImpactHotspots|
      invariant 0 <= i <= |ImpactHotspots|
      invariant maxImpact == ImpactUpTo(dists, i)
    {
      var distance := dists[i];
      if distance < ImpactRadius {
        var impact := ImpactTerm(i, distance);
        maxImpact := Max(maxImpact, impact);
      }
      i := i + 1;
    }
  }

  // ---------------------------------------------------------------------------
  // Water colour
  // ---------------------------------------------------------------------------

  /** "Heavy Sediment (Brown)", "Moderate Sediment (Yellow-Brown)",
      "Light Sediment (Green-Brown)" and "Clear (Green-Blue)". */
  datatype WaterColor = HeavySediment | ModerateSediment | LightSediment | Clear

  function SedimentLevel(c: WaterColor): nat
  {
    match c
    case Clear => 0
    case LightSediment => 1
    case ModerateSediment => 2
    case HeavySediment => 3
  }

  /** The colour label: above 200 NTU Heavy, above 100 Moderate, above 50 Light, else Clear. */
  function AnalyzeWaterColor(turbidity: real): (c: WaterColor)
    ensures c == HeavySediment <==> turbidity > 200.0
    ensures c == ModerateSediment <==> 100.0 < turbidity <= 200.0
    ensures c == LightSediment <==> 50.0 < turbidity <= 100.0
    ensures c == Clear <==> turbidity <= 50.0
  {
    if turbidity > 200.0 then HeavySediment
    else if turbidity > 100.0 then ModerateSediment
    else if turbidity > 50.0 then LightSediment
    else Clear
  }

  /** More turbid water never gets a clearer label. */
  lemma WaterColorMonotone(t1: real, t2: real)
    requires t1 <= t2
    ensures SedimentLevel(AnalyzeWaterColor(t1)) <= SedimentLevel(AnalyzeWaterColor(t2))
  {
  }

  // ---------------------------------------------------------------------------
  // Closest river
  // ---------------------------------------------------------------------------

  datatype RiverStation = RiverStation(name: string, location: Point)

  /** The rivers in the order this helper scans them. */
  const SatelliteRivers: seq<RiverStation> := [
    RiverStation("Pra River", Point(5.5, -1.0)),
    RiverStation("Ankobra River", Point(5.2, -2.2)),
    RiverStation("Birim River", Point(6.2, -1.1)),
    RiverStation("Offin River", Point(6.2, -1.9)),
    RiverStation("Tano River", Point(6.3, -2.8)),
    RiverStation("Volta River", Point(7.5, 0.5))
  ]

  function RiverSqDists(p: Point): (ds: seq<real>)
    ensures |ds| == |SatelliteRivers|
    ensures forall i | 0 <= i < |ds| :: ds[i] == SqDist(p, SatelliteRivers[i].location)
  {
    seq(|SatelliteRivers|, i requires 0 <= i < |SatelliteRivers| => SqDist(p, SatelliteRivers[i].location))
  }

  /** The closest river: one at minimal distance, the earliest in list order among ties. */
  function ClosestRiver(p: Point): (name: string)
    ensures exists k | 0 <= k < |SatelliteRivers| ::
      && name == SatelliteRivers[k].name
      && (forall j | 0 <= j < |SatelliteRivers| :: SqDist(p, SatelliteRivers[k].location) <= SqDist(p, SatelliteRivers[j].location))
      && (forall j | 0 <= j < k :: SqDist(p, SatelliteRivers[k].location) < SqDist(p, SatelliteRivers[j].location))
  {
    var k := ArgMin(RiverSqDists(p));
    SatelliteRivers[k].name
  }

  /** The source's scan: start from "Pra River" at infinite distance and move to a river only
      when it is strictly closer. `minDistance == None` stands for `float('inf')`. */
  method FindClosestRiver(p: Point) returns (closestRiver: string)
    ensures closestRiver == ClosestRiver(p)
  {
    var ds := RiverSqDists(p);
    closestRiver := "Pra River";
    var minDistance: Option<real> := None;
    var best := 0;
    var i := 0;
    while i < |SatelliteRivers|
      invariant 0 <= i <= |SatelliteRivers|
      invariant i == 0 <==> minDistance == None
      invariant best < |SatelliteRivers|
      invariant i > 0 ==> best == ArgMin(ds[..i]) && minDistance == Some(ds[best])
      invariant closestRiver == SatelliteRivers[best].name
    {
      var distance := SqDist(p, SatelliteRivers[i].location);
      if minDistance == None || distance < minDistance.value {
        minDistance := Some(distance);
        closestRiver := SatelliteRivers[i].name;
        best := i;
      }
      assert ds[..i + 1][..i] == ds[..i];
      i := i + 1;
    }
    assert ds[..|SatelliteRivers|] == ds;
  }

  // ---------------------------------------------------------------------------
  // Turbidity baseline and simulated satellite reading
  // ---------------------------------------------------------------------------

  /** The six rivers with a recorded turbidity baseline. */
  const BaselineRivers: set<string> :=
    {"Pra River", "Ankobra River", "Birim River", "Offin River", "Tano River", "Volta River"}

  /** The (low, high) turbidity range of a river's historical baseline; (20, 100) for a name
      without an entry. Every range is non-empty and lies within [10, 400]. */
  function TurbidityBaseline(river: string): (range: (int, int))
    ensures river !in BaselineRivers ==> range == (20, 100)
    ensures range.0 < range.1
    ensures 10 <= range.0 && range.1 <= 400
  {
    if river == "Pra River" then (80, 400)
    else if river == "Ankobra River" then (70, 350)
    else if river == "Birim River" then (40, 150)
    else if river == "Offin River" then (60, 280)
    else if river == "Tano River" then (30, 120)
    else if river == "Volta River" then (10, 50)
    else (20, 100)
  }

  /** A value raised by a fraction `m` of itself, for `m` between 0 and 0.9. */
  function Raise(b: real, m: real): (r: real)
    requires 0.0 <= m <= 0.9
    ensures b >= 0.0 ==> b <= r <= 1.9 * b
    ensures m == 0.0 ==> r == b
  {
    assert b * (1.0 + m) == b + b * m;
    assert b >= 0.0 ==> 0.0 <= b * m <= b * 0.9;
    b * (1.0 + m)
  }

  /** The simulated satellite reading. */
  datatype SatelliteReading = SatelliteReading(turbidityIndex: real, waterColor: WaterColor, suspendedSolids: real)

  /** The simulation: the drawn baseline turbidity raised by the mining impact,
      its colour label, and suspended solids at 2.3 per NTU. A non-negative baseline is
      never lowered, and at most multiplied by 1.9. */
  function EnhancedSimulationData(baseTurbidity: int, dists: seq<real>): (r: SatelliteReading)
    requires ImpactDistances(dists)
    ensures r.waterColor == AnalyzeWaterColor(r.turbidityIndex)
    ensures r.suspendedSolids == r.turbidityIndex * 2.3
    ensures baseTurbidity >= 0 ==> baseTurbidity as real <= r.turbidityIndex <= 1.9 * baseTurbidity as real
  {
    var adjusted := Raise(baseTurbidity as real, MiningImpact(dists));
    SatelliteReading(adjusted, AnalyzeWaterColor(adjusted), adjusted * 2.3)
  }

  /** Without a hotspot in range the simulation keeps the drawn baseline. */
  lemma SimulationWithoutHotspot(baseTurbidity: int, dists: seq<real>)
    requires ImpactDistances(dists)
    requires forall i | 0 <= i < |dists| :: dists[i] >= ImpactRadius
    ensures EnhancedSimulationData(baseTurbidity, dists).turbidityIndex == baseTurbidity as real
  {
    var impact := MiningImpact(dists);
    assert impact == 0.0;
  }

  // ---------------------------------------------------------------------------
  // Rainfall
  // ---------------------------------------------------------------------------

  /** The range of the base rainfall draw: `randint(50, 200)` south of 6.0 degrees north,
      `randint(20, 100)` elsewhere. */
  function RainfallDrawRange(lat: real): (range: (int, int))
  {
    if lat < 6.0 then (50, 200) else (20, 100)
  }

  predicate RainySeasonMonth(month: int)
  {
    month in {4, 5, 6, 7, 9, 10}
  }

  /** The simulated rainfall: the base draw, scaled by 1.5 in April to July, September and
      October, and capped at 300 mm. */
  function SimulateGhanaRainfall(month: int, baseRainfall: int): (r: real)
    ensures r <= 300.0
    ensures RainySeasonMonth(month) ==> r == Min(300.0, 1.5 * baseRainfall as real)
    ensures !RainySeasonMonth(month) ==> r == Min(300.0, baseRainfall as real)
  {
    var base := if RainySeasonMonth(month) then baseRainfall as real * 1.5 else baseRainfall as real;
    Min(300.0, base)
  }

  /** For draws in the documented range the 300 mm cap never binds: the result is the
      (possibly scaled) draw itself, at least 20 mm. */
  lemma RainfallCapNeverBinds(lat: real, month: int, baseRainfall: int)
    requires RainfallDrawRange(lat).0 <= baseRainfall <= RainfallDrawRange(lat).1
    ensures SimulateGhanaRainfall(month, baseRainfall) ==
              (if RainySeasonMonth(month) then 1.5 else 1.0) * baseRainfall as real
    ensures SimulateGhanaRainfall(month, baseRainfall) >= 20.0
  {
  }
}
