/** The pollution-risk engine (utils/prediction_engine.py, class PollutionPredictor): the
    mining-proximity term, the weighted and capped risk score, the season table, the risk
    tier, the confidence label, the nearest hotspot, the closest river, the factor list, and
    the five-minute prediction cache.

    Distances: the source measures the Euclidean distance in degrees from the query point to
    each of the thirteen hotspots with a square root. Here the caller supplies those thirteen
    distances as `dists` (non-negative, `dists[i]` for `Hotspots[i]`), and every rule that
    the source states on them is stated on `dists`. The satellite reading, the rainfall, the
    month and the clock are parameters too. */
module PredictionEngine {
  import opened Common
  import opened SatelliteData

  // ---------------------------------------------------------------------------
  // Hotspots
  // ---------------------------------------------------------------------------

  /** The `type` of a hotspot: "large_scale", "medium_scale" or "small_scale". */
  datatype MiningScale = LargeScale | MediumScale | SmallScale

  datatype Hotspot = Hotspot(name: string, river: string, location: Point, intensity: real, scale: MiningScale)

  /** The thirteen known mining hotspots, in the order the engine scans them. */
  const Hotspots: seq<Hotspot> := [
    Hotspot("Dunkwa-on-Offin", "Pra River", Point(5.650, -1.100), 0.95, LargeScale),
    Hotspot("Oda River Junction", "Pra River", Point(5.720, -0.950), 0.90, MediumScale),
    Hotspot("Nsuta Mining Area", "Pra River", Point(5.580, -1.250), 0.85, LargeScale),
    Hotspot("Akwatia Diamond Fields", "Birim River", Point(6.250, -1.150), 0.92, LargeScale),
    Hotspot("Kade Concessions", "Birim River", Point(6.180, -1.080), 0.88, MediumScale),
    Hotspot("Asamankese Area", "Birim River", Point(6.300, -1.220), 0.80, SmallScale),
    Hotspot("Prestea Mining Zone", "Ankobra River", Point(5.300, -2.350), 0.87, LargeScale),
    Hotspot("Bogoso Concessions", "Ankobra River", Point(5.450, -2.450), 0.83, MediumScale),
    Hotspot("Tarkwa Area", "Ankobra River", Point(5.200, -2.280), 0.78, LargeScale),
    Hotspot("Jacobu Mining Area", "Offin River", Point(6.200, -1.850), 0.85, MediumScale),
    Hotspot("Bekwai Concessions", "Offin River", Point(6.250, -1.950), 0.82, SmallScale),
    Hotspot("Bibiani Gold Belt", "Tano River", Point(6.350, -2.850), 0.75, LargeScale),
    Hotspot("Sefwi Area", "Tano River", Point(6.280, -2.750), 0.70, MediumScale)
  ]

  /** The largest hotspot intensity. */
  const MaxIntensity: real := 0.95

  lemma HotspotIntensitiesBounded()
    ensures forall i | 0 <= i < |Hotspots| :: 0.0 <= Hotspots[i].intensity <= MaxIntensity
  {
  }

  /** `dists` holds one non-negative distance per hotspot. */
  predicate HotspotDistances(dists: seq<real>)
  {
    |dists| == |Hotspots| && forall i | 0 <= i < |dists| :: dists[i] >= 0.0
  }

  // ---------------------------------------------------------------------------
  // Mining proximity
  // ---------------------------------------------------------------------------

  /** Beyond this distance (degrees) a hotspot adds no proximity risk. */
  const ProximityRadius: real := 0.5

  /** Hotspot `i`'s term: intensity * max(0, 1 - d / 0.5). */
  function ProximityTerm(i: nat, d: real): real
    requires i < |Hotspots|
  {
    Hotspots[i].intensity * Max(0.0, 1.0 - d / ProximityRadius)
  }

  /** A term lies between 0 and its hotspot's intensity, vanishes from 0.5 degrees on, and
      does not grow with distance. */
  lemma ProximityTermFacts(i: nat, d: real)
    requires i < |Hotspots|
    requires d >= 0.0
    ensures 0.0 <= ProximityTerm(i, d) <= Hotspots[i].intensity
    ensures d >= ProximityRadius ==> ProximityTerm(i, d) == 0.0
  {
    HotspotIntensitiesBounded();
    MulMonotone(Hotspots[i].intensity, 0.0, Max(0.0, 1.0 - d / ProximityRadius));
    MulMonotone(Hotspots[i].intensity, Max(0.0, 1.0 - d / ProximityRadius), 1.0);
  }

  lemma ProximityTermAntitone(i: nat, d1: real, d2: real)
    requires i < |Hotspots|
    requires d1 <= d2
    ensures ProximityTerm(i, d2) <= ProximityTerm(i, d1)
  {
    HotspotIntensitiesBounded();
    MulMonotone(Hotspots[i].intensity, Max(0.0, 1.0 - d2 / ProximityRadius), Max(0.0, 1.0 - d1 / ProximityRadius));
  }

  function ProximityTerms(dists: seq<real>): (ts: seq<real>)
    requires |dists| == |Hotspots|
    ensures |ts| == |dists|
    ensures forall i | 0 <= i < |ts| :: ts[i] == ProximityTerm(i, dists[i])
  {
    seq(|dists|, i requires 0 <= i < |dists| => ProximityTerm(i, dists[i]))
  }

  /** The mining-proximity risk: the largest hotspot term (`np.max` of the thirteen terms),
      so at least every term, equal to one of them, and within [0, 0.95]. */
  function MiningProximityRisk(dists: seq<real>): (m: real)
    requires HotspotDistances(dists)
    ensures forall i | 0 <= i < |dists| :: ProximityTerm(i, dists[i]) <= m
    ensures exists i | 0 <= i < |dists| :: m == ProximityTerm(i, dists[i])
    ensures 0.0 <= m <= MaxIntensity
  {
    var ts := ProximityTerms(dists);
    var m := MaxOf(ts);
    forall i | 0 <= i < |dists| ensures 0.0 <= ts[i] <= MaxIntensity {
      ProximityTermFacts(i, dists[i]);
    }
    m
  }

  /** With every hotspot at least 0.5 degrees away, there is no proximity risk. */
  lemma ProximityZeroWhenFar(dists: seq<real>)
    requires HotspotDistances(dists)
    requires forall i | 0 <= i < |dists| :: dists[i] >= ProximityRadius
    ensures MiningProximityRisk(dists) == 0.0
  {
    var m := MiningProximityRisk(dists);
    var k :| 0 <= k < |dists| && m == ProximityTerm(k, dists[k]);
    ProximityTermFacts(k, dists[k]);
  }

  /** Being at least as close to every hotspot never lowers the proximity risk. */
  lemma ProximityAntitone(near: seq<real>, far: seq<real>)
    requires HotspotDistances(near) && HotspotDistances(far)
    requires forall i | 0 <= i < |near| :: near[i] <= far[i]
    ensures MiningProximityRisk(far) <= MiningProximityRisk(near)
  {
    var m := MiningProximityRisk(far);
    var k :| 0 <= k < |far| && m == ProximityTerm(k, far[k]);
    ProximityTermAntitone(k, near[k], far[k]);
  }

  // ---------------------------------------------------------------------------
  // Season and score
  // ---------------------------------------------------------------------------

  predicate DrySeasonMonth(month: int) { month in {11, 12, 1, 2} }
  predicate RainySeason(month: int) { month in {6, 7, 8, 9} }

  /** The seasonal factor: 0.8 in the dry months 11, 12, 1, 2; 0.6 in the rainy months
      6 to 9; 0.7 otherwise (the transition months, and any other value). */
  function SeasonalRisk(month: int): (s: real)
    ensures s == 0.8 <==> DrySeasonMonth(month)
    ensures s == 0.6 <==> RainySeason(month)
    ensures s == 0.7 <==> !DrySeasonMonth(month) && !RainySeason(month)
  {
    if DrySeasonMonth(month) then 0.8
    else if RainySeason(month) then 0.6
    else 0.7
  }

  /** The comprehensive score: 100 * (0.4 * proximity + 0.3 * min(turbidity / 150, 1)
      + 0.2 * min(rainfall / 30, 1) + 0.1 * seasonal), capped at 100. */
  function ComprehensiveRisk(proximity: real, turbidity: real, rainfall: real, seasonal: real): (score: real)
    ensures score <= 100.0
    ensures proximity >= 0.0 && turbidity >= 0.0 && rainfall >= 0.0 && seasonal >= 0.0 ==> score >= 0.0
  {
    var miningRisk := proximity * 0.40;
    var turbidityRisk := Min(turbidity / 150.0, 1.0) * 0.30;
    var rainfallRisk := Min(rainfall / 30.0, 1.0) * 0.20;
    var seasonalRisk := seasonal * 0.10;
    Min(100.0, (miningRisk + turbidityRisk + rainfallRisk + seasonalRisk) * 100.0)
  }

  /** The score the engine computes at a point. */
  function PointScore(dists: seq<real>, turbidity: real, rainfall: real, month: int): real
    requires HotspotDistances(dists)
  {
    ComprehensiveRisk(MiningProximityRisk(dists), turbidity, rainfall, SeasonalRisk(month))
  }

  /** At any point the engine's own inputs keep the score within [0, 96]: proximity is at
      most 0.95 and the seasonal factor at most 0.8, so the cap at 100 never binds. */
  lemma PointScoreBounded(dists: seq<real>, turbidity: real, rainfall: real, month: int)
    requires HotspotDistances(dists)
    requires turbidity >= 0.0 && rainfall >= 0.0
    ensures 0.0 <= PointScore(dists, turbidity, rainfall, month) <= 96.0
  {
  }

  /** The score does not fall when the turbidity rises. */
  lemma ScoreMonotoneInTurbidity(proximity: real, t1: real, t2: real, rainfall: real, seasonal: real)
    requires t1 <= t2
    ensures ComprehensiveRisk(proximity, t1, rainfall, seasonal) <= ComprehensiveRisk(proximity, t2, rainfall, seasonal)
  {
  }

  /** The score does not fall when the rainfall rises. */
  lemma ScoreMonotoneInRainfall(proximity: real, turbidity: real, r1: real, r2: real, seasonal: real)
    requires r1 <= r2
    ensures ComprehensiveRisk(proximity, turbidity, r1, seasonal) <= ComprehensiveRisk(proximity, turbidity, r2, seasonal)
  {
  }

  /** The score does not fall when the point moves closer to every hotspot. */
  lemma PointScoreAntitoneInDistance(near: seq<real>, far: seq<real>, turbidity: real, rainfall: real, month: int)
    requires HotspotDistances(near) && HotspotDistances(far)
    requires forall i | 0 <= i < |near| :: near[i] <= far[i]
    ensures PointScore(far, turbidity, rainfall, month) <= PointScore(near, turbidity, rainfall, month)
  {
    ProximityAntitone(near, far);
  }

  // ---------------------------------------------------------------------------
  // Risk tier and confidence
  // ---------------------------------------------------------------------------

  /** "🟢 LOW", "🟡 MEDIUM", "🟠 HIGH" and "🔴 CRITICAL". */
  datatype RiskLevel = Low | Medium | High | Critical

  function Rank(l: RiskLevel): nat
  {
    match l
    case Low => 0
    case Medium => 1
    case High => 2
    case Critical => 3
  }

  /** The label the engine stores in a prediction. */
  function RiskLabel(l: RiskLevel): string
  {
    match l
    case Low => "🟢 LOW"
    case Medium => "🟡 MEDIUM"
    case High => "🟠 HIGH"
    case Critical => "🔴 CRITICAL"
  }

  /** Which of the engine's labels contain "CRITICAL" and "HIGH": exactly the Critical one
      and exactly the High one. */
  lemma {:induction false} RiskLabelWords(l: RiskLevel)
    ensures Contains(RiskLabel(l), "CRITICAL") <==> l == Critical
    ensures Contains(RiskLabel(l), "HIGH") <==> l == High
    ensures Contains(RiskLabel(l), "MEDIUM") <==> l == Medium
  {
    match l
    case Critical =>
      assert OccursAt(RiskLabel(l), "CRITICAL", 2);
      MissingCharNotContained(RiskLabel(l), "HIGH", 0);
      MissingCharNotContained(RiskLabel(l), "MEDIUM", 1);
    case High =>
      assert OccursAt(RiskLabel(l), "HIGH", 2);
      MissingCharNotContained(RiskLabel(l), "CRITICAL", 0);
      MissingCharNotContained(RiskLabel(l), "MEDIUM", 0);
    case Medium =>
      assert OccursAt(RiskLabel(l), "MEDIUM", 2);
      MissingCharNotContained(RiskLabel(l), "CRITICAL", 0);
      MissingCharNotContained(RiskLabel(l), "HIGH", 0);
    case Low =>
      MissingCharNotContained(RiskLabel(l), "CRITICAL", 0);
      MissingCharNotContained(RiskLabel(l), "HIGH", 0);
      MissingCharNotContained(RiskLabel(l), "MEDIUM", 0);
  }

  /** The tier of a score: 70 and above Critical, 50 and above High, 30 and above Medium,
      below 30 Low (each threshold included in the higher tier). */
  function RiskTier(score: real): (l: RiskLevel)
    ensures l == Critical <==> score >= 70.0
    ensures l == High <==> 50.0 <= score < 70.0
    ensures l == Medium <==> 30.0 <= score < 50.0
    ensures l == Low <==> score < 30.0
  {
    if score >= 70.0 then Critical
    else if score >= 50.0 then High
    else if score >= 30.0 then Medium
    else Low
  }

  /** A higher score never gets a lower tier. */
  lemma RiskTierMonotone(s1: real, s2: real)
    requires s1 <= s2
    ensures Rank(RiskTier(s1)) <= Rank(RiskTier(s2))
  {
  }

  /** The confidence label: "HIGH", "MEDIUM" or "LOW". */
  datatype Confidence = HighConfidence | MediumConfidence | LowConfidence

  /** The distance to the nearest hotspot. */
  function MinDistance(dists: seq<real>): (d: real)
    requires HotspotDistances(dists)
    ensures forall i | 0 <= i < |dists| :: d <= dists[i]
    ensures exists i | 0 <= i < |dists| :: d == dists[i]
  {
    dists[ArgMin(dists)]
  }

  /** Confidence from the nearest hotspot: HIGH when some hotspot is closer than 0.1
      degrees, MEDIUM when the nearest is in [0.1, 0.3), LOW when all are 0.3 or more. */
  function CalculateConfidence(dists: seq<real>): (c: Confidence)
    requires HotspotDistances(dists)
    ensures c == HighConfidence <==> exists i | 0 <= i < |dists| :: dists[i] < 0.1
    ensures c == MediumConfidence <==>
      (forall i | 0 <= i < |dists| :: dists[i] >= 0.1) && exists i | 0 <= i < |dists| :: dists[i] < 0.3
    ensures c == LowConfidence <==> forall i | 0 <= i < |dists| :: dists[i] >= 0.3
  {
    var minDistance := MinDistance(dists);
    if minDistance < 0.1 then HighConfidence
    else if minDistance < 0.3 then MediumConfidence
    else LowConfidence
  }

  // ---------------------------------------------------------------------------
  // Nearest hotspot and closest river
  // ---------------------------------------------------------------------------

  /** The nearest hotspot (by index) and its distance in kilometres, at 111 km per degree. */
  datatype Nearest = Nearest(index: nat, distanceKm: real)

  /** `np.argmin` of the distances: a hotspot at minimal distance, the first among ties. */
  function GetNearestHotspot(dists: seq<real>): (n: Nearest)
    requires HotspotDistances(dists)
    ensures n.index < |Hotspots|
    ensures forall j | 0 <= j < |dists| :: dists[n.index] <= dists[j]
    ensures forall j | 0 <= j < n.index :: dists[n.index] < dists[j]
    ensures n.distanceKm == dists[n.index] * 111.0
  {
    var k := ArgMin(dists);
    Nearest(k, dists[k] * 111.0)
  }

  /** The rivers of the engine's own closest-river search; Tano comes before Offin here. */
  const EngineRivers: seq<RiverStation> := [
    RiverStation("Pra River", Point(5.5, -1.0)),
    RiverStation("Ankobra River", Point(5.2, -2.2)),
    RiverStation("Birim River", Point(6.2, -1.1)),
    RiverStation("Tano River", Point(6.3, -2.8)),
    RiverStation("Offin River", Point(6.2, -1.9)),
    RiverStation("Volta River", Point(7.5, 0.5))
  ]

  /** The closest river by `np.argmin`: a river at minimal distance, the first listed
      among ties. */
  function FindClosestRiverOptimized(p: Point): (name: string)
    ensures exists k | 0 <= k < |EngineRivers| ::
      && name == EngineRivers[k].name
      && (forall j | 0 <= j < |EngineRivers| :: SqDist(p, EngineRivers[k].location) <= SqDist(p, EngineRivers[j].location))
      && (forall j | 0 <= j < k :: SqDist(p, EngineRivers[k].location) < SqDist(p, EngineRivers[j].location))
  {
    var k := ArgMin(EngineRiverSqDists(p));
    EngineRivers[k].name
  }

  function EngineRiverSqDists(p: Point): (ds: seq<real>)
    ensures |ds| == |EngineRivers|
    ensures forall i | 0 <= i < |ds| :: ds[i] == SqDist(p, EngineRivers[i].location)
  {
    seq(|EngineRivers|, i requires 0 <= i < |EngineRivers| => SqDist(p, EngineRivers[i].location))
  }

  // ---------------------------------------------------------------------------
  // Risk factors
  // ---------------------------------------------------------------------------

  /** The entries of the factor list; the formatted texts carry these values. */
  datatype Factor =
    | NearHotspot(hotspotName: string, distanceKm: real)   // "Near <name> (<km>km)"
    | MiningActivity(scale: MiningScale)                   // "<Type> mining activity"
    | HighTurbidity(ntu: real)                             // "High turbidity (<n> NTU)"
    | Discoloration                                        // "Water discoloration detected"
    | HeavyRainfall(mm: real)                              // "Heavy rainfall (<r>mm - runoff risk)"
    | DrySeasonConcentration                               // "Dry season - pollution concentration"
    | NormalConditions                                     // "Normal conditions - low risk"

  /** Whether each of the five factor conditions holds. */
  predicate NearHotspotCondition(nearest: Nearest) { nearest.distanceKm < 50.0 }
  predicate TurbidCondition(turbidity: real) { turbidity > 80.0 }
  predicate DiscolorCondition(color: WaterColor) { color != Clear }
  predicate RainCondition(rainfall: real) { rainfall > 20.0 }

  /** The factors that apply, in the order the source tests them, before the fallback and
      the cut to four. */
  function CandidateFactors(nearest: Nearest, turbidity: real, color: WaterColor, rainfall: real, month: int): seq<Factor>
    requires nearest.index < |Hotspots|
  {
    NearFactors(nearest) + TurbidityFactors(turbidity) + ColorFactors(color)
    + RainFactors(rainfall) + SeasonFactors(month)
  }

  function NearFactors(nearest: Nearest): seq<Factor>
    requires nearest.index < |Hotspots|
  {
    var h := Hotspots[nearest.index];
    if NearHotspotCondition(nearest) then [NearHotspot(h.name, nearest.distanceKm), MiningActivity(h.scale)] else []
  }

  function TurbidityFactors(turbidity: real): seq<Factor>
  {
    if TurbidCondition(turbidity) then [HighTurbidity(turbidity)] else []
  }

  function ColorFactors(color: WaterColor): seq<Factor>
  {
    if DiscolorCondition(color) then [Discoloration] else []
  }

  function RainFactors(rainfall: real): seq<Factor>
  {
    if RainCondition(rainfall) then [HeavyRainfall(rainfall)] else []
  }

  function SeasonFactors(month: int): seq<Factor>
  {
    if DrySeasonMonth(month) then [DrySeasonConcentration] else []
  }

  /** The factor list: the candidates (or the single fallback when there are none), cut to
      the first four. */
  function RiskFactors(nearest: Nearest, turbidity: real, color: WaterColor, rainfall: real, month: int): (fs: seq<Factor>)
    requires nearest.index < |Hotspots|
    ensures 1 <= |fs| <= 4
    ensures fs == [NormalConditions] <==>
      !NearHotspotCondition(nearest) && !TurbidCondition(turbidity) && !DiscolorCondition(color)
      && !RainCondition(rainfall) && !DrySeasonMonth(month)
    ensures NearHotspotCondition(nearest) ==> fs[0] == NearHotspot(Hotspots[nearest.index].name, nearest.distanceKm)
  {
    var c := CandidateFactors(nearest, turbidity, color, rainfall, month);
    var all := if c == [] then [NormalConditions] else c;
    assert NormalConditions !in c;
    if |all| > 4 then all[..4] else all
  }

  /** The source's list building: append each applicable factor in turn, fall back to
      "Normal conditions - low risk", keep the first four. */
  method GetRiskFactors(nearest: Nearest, turbidity: real, color: WaterColor, rainfall: real, month: int)
    returns (factors: seq<Factor>)
    requires nearest.index < |Hotspots|
    ensures factors == RiskFactors(nearest, turbidity, color, rainfall, month)
    ensures 1 <= |factors| <= 4
  {
    var h := Hotspots[nearest.index];
    factors := [];
    if nearest.distanceKm < 50.0 {
      factors := factors + [NearHotspot(h.name, nearest.distanceKm)];
      factors := factors + [MiningActivity(h.scale)];
    }
    assert factors == NearFactors(nearest);
    if turbidity > 80.0 {
      factors := factors + [HighTurbidity(turbidity)];
    }
    assert factors == NearFactors(nearest) + TurbidityFactors(turbidity);
    if color != Clear {
      factors := factors + [Discoloration];
    }
    assert factors == NearFactors(nearest) + TurbidityFactors(turbidity) + ColorFactors(color);
    if rainfall > 20.0 {
      factors := factors + [HeavyRainfall(rainfall)];
    }
    assert factors == NearFactors(nearest) + TurbidityFactors(turbidity) + ColorFactors(color) + RainFactors(rainfall);
    if month in {11, 12, 1, 2} {
      factors := factors + [DrySeasonConcentration];
    }
    assert factors == CandidateFactors(nearest, turbidity, color, rainfall, month);
    if factors == [] {
      factors := factors + [NormalConditions];
    }
    if |factors| > 4 {
      factors := factors[..4];
    }
  }

  // ---------------------------------------------------------------------------
  // Predictions and the cache
  // ---------------------------------------------------------------------------

  /** What the engine reads besides the query: the hotspot distances, the satellite
      turbidity index and water colour (drawn independently in the source), the rainfall and
      the month. */
  datatype Observation = Observation(dists: seq<real>, turbidity: real, color: WaterColor, rainfall: real, month: int)

  predicate ValidObservation(o: Observation)
  {
    HotspotDistances(o.dists)
  }

  /** A prediction, without its formatted time and its constant source list. */
  datatype Prediction = Prediction(
    riverName: string,
    location: Point,
    riskLevel: RiskLevel,
    riskScore: real,
    confidence: Confidence,
    factors: seq<Factor>,
    nearest: Nearest)

  /** A fresh prediction for a point. */
  function Predict(location: Point, riverName: string, o: Observation): Prediction
    requires ValidObservation(o)
  {
    var score := PointScore(o.dists, o.turbidity, o.rainfall, o.month);
    var nearest := GetNearestHotspot(o.dists);
    Prediction(riverName, location, RiskTier(score), score, CalculateConfidence(o.dists),
      RiskFactors(nearest, o.turbidity, o.color, o.rainfall, o.month), nearest)
  }

  /** Every fresh prediction is internally consistent: its tier is the tier of its score,
      the score lies in [0, 96] for non-negative readings, and it has one to four factors. */
  lemma PredictionConsistent(location: Point, riverName: string, o: Observation)
    requires ValidObservation(o)
    requires o.turbidity >= 0.0 && o.rainfall >= 0.0
    ensures Predict(location, riverName, o).riskLevel == RiskTier(Predict(location, riverName, o).riskScore)
    ensures 0.0 <= Predict(location, riverName, o).riskScore <= 96.0
    ensures 1 <= |Predict(location, riverName, o).factors| <= 4
  {
    PointScoreBounded(o.dists, o.turbidity, o.rainfall, o.month);
  }

  /** The CRITICAL tier is reachable: standing on Dunkwa-on-Offin (intensity 0.95) with
      turbidity 150, rainfall 30 in a dry month scores the maximum 96. */
  lemma CriticalReachable(location: Point, riverName: string, dists: seq<real>, color: WaterColor)
    requires HotspotDistances(dists) && dists[0] == 0.0
    ensures Predict(location, riverName, Observation(dists, 150.0, color, 30.0, 1)).riskScore == 96.0
    ensures Predict(location, riverName, Observation(dists, 150.0, color, 30.0, 1)).riskLevel == Critical
  {
    var m := MiningProximityRisk(dists);
    assert ProximityTerm(0, dists[0]) == 0.95;
    assert m == 0.95;
  }

  /** The key a prediction is cached under; the source formats the coordinates to three
      decimals, here they are kept exactly. */
  datatype CacheKey = CacheKey(lat: real, lon: real, riverName: string)

  datatype CacheEntry = CacheEntry(prediction: Prediction, timestamp: real)

  /** Seconds a cached prediction stays fresh. */
  const CacheTimeout: real := 300.0

  /** A cache entry is fresh at `now` when it was stored less than 300 seconds before. */
  predicate Fresh(e: CacheEntry, now: real)
  {
    now - e.timestamp < CacheTimeout
  }

  class PollutionPredictor {
    var cache: map<CacheKey, CacheEntry>

    constructor ()
      ensures cache == map[]
    {
      cache := map[];
    }

    /** A repeat request for the same key less than 300 s after it was stored returns the
        stored prediction and leaves the cache alone; any other request computes a fresh
        prediction and stores it under the key with the current time. */
    method PredictPollutionRisk(lat: real, lon: real, riverName: string, now: real, o: Observation)
      returns (p: Prediction)
      requires ValidObservation(o)
      modifies this
      ensures var key := CacheKey(lat, lon, riverName);
        if key in old(cache) && Fresh(old(cache)[key], now) then
          p == old(cache)[key].prediction && cache == old(cache)
        else
          p == Predict(Point(lat, lon), riverName, o) && cache == old(cache)[key := CacheEntry(p, now)]
    {
      var key := CacheKey(lat, lon, riverName);
      if key in cache && now - cache[key].timestamp < CacheTimeout {
        return cache[key].prediction;
      }
      var riskScore := ComprehensiveRisk(MiningProximityRisk(o.dists), o.turbidity, o.rainfall, SeasonalRisk(o.month));
      var riskLevel := RiskTier(riskScore);
      var confidence := CalculateConfidence(o.dists);
      var nearest := GetNearestHotspot(o.dists);
      var factors := GetRiskFactors(nearest, o.turbidity, o.color, o.rainfall, o.month);
      p := Prediction(riverName, Point(lat, lon), riskLevel, riskScore, confidence, factors, nearest);
      cache := cache[key := CacheEntry(p, now)];
    }

    /** Empties the cache. */
    method ClearCache()
      modifies this
      ensures cache == map[]
    {
      cache := map[];
    }
  }

  /** Two requests for the same point and river, the second less than 300 s after the
      first: when the first finds no fresh entry it computes a prediction from its own
      observation, and the second returns that very prediction, whatever the second
      observation says and without touching the cache again; when an entry already stored
      is fresh at both times, both requests return it. */
  method CacheHitWithinTimeout(pp: PollutionPredictor, lat: real, lon: real, riverName: string,
                               first: real, second: real, o1: Observation, o2: Observation)
    returns (p1: Prediction, p2: Prediction)
    requires ValidObservation(o1) && ValidObservation(o2)
    requires second < first + CacheTimeout
    modifies pp
    ensures var key := CacheKey(lat, lon, riverName);
      key !in old(pp.cache) || !Fresh(old(pp.cache)[key], first) ==>
        && p1 == Predict(Point(lat, lon), riverName, o1)
        && p2 == p1
        && pp.cache == old(pp.cache)[key := CacheEntry(p1, first)]
    ensures var key := CacheKey(lat, lon, riverName);
      key in old(pp.cache) && Fresh(old(pp.cache)[key], first) && Fresh(old(pp.cache)[key], second) ==>
        p1 == old(pp.cache)[key].prediction && p2 == p1 && pp.cache == old(pp.cache)
  {
    p1 := pp.PredictPollutionRisk(lat, lon, riverName, first, o1);
    p2 := pp.PredictPollutionRisk(lat, lon, riverName, second, o2);
  }
}
