/** The map rules (utils/map_helper.py): the two protected zones, the colour of prediction
    markers, of monitoring markers and of risk-overlay markers, the validation of risk
    points and the fallback from the overlay map to the plain monitoring map. A map is
    described by the markers drawn on it; rendering, popups and tiles are not modelled. */
module MapHelper {
  import opened Common
  import opened SampleData
  import PredictionEngine

  datatype Color = Red | Orange | Yellow | Green

  // ---------------------------------------------------------------------------
  // Protected zones
  // ---------------------------------------------------------------------------

  /** A protected zone: a polygon given by its vertices, outline colour and fill opacity. */
  datatype Zone = Zone(name: string, coordinates: seq<Point>, color: Color, fillOpacity: real)

  function CreateProtectedZones(): (zones: seq<Zone>)
    ensures |zones| == 2
    ensures forall k | 0 <= k < |zones| :: |zones[k].coordinates| == 4
  {
    [ Zone("Pra River Protected Zone", [Point(5.8, -1.3), Point(5.8, -0.8), Point(5.3, -0.8), Point(5.3, -1.3)], Red, 0.1),
      Zone("Ankobra Critical Area", [Point(5.4, -2.4), Point(5.4, -2.0), Point(5.0, -2.0), Point(5.0, -2.4)], Orange, 0.1) ]
  }

  /** A point inside a zone whose four vertices run north-west, north-east, south-east,
      south-west. */
  predicate InsideZone(z: Zone, p: Point)
    requires |z.coordinates| == 4
  {
    z.coordinates[2].lat <= p.lat <= z.coordinates[0].lat && z.coordinates[0].lon <= p.lon <= z.coordinates[1].lon
  }

  /** The zones are rectangles in that vertex order, and each encloses the monitoring
      station of the river it protects. */
  lemma ZonesEncloseStations()
    ensures forall k | 0 <= k < 2 ::
      var c := CreateProtectedZones()[k].coordinates;
      c[0].lat == c[1].lat && c[2].lat == c[3].lat && c[0].lon == c[3].lon && c[1].lon == c[2].lon
    ensures Rivers[0].name == "Pra River" && InsideZone(CreateProtectedZones()[0], Rivers[0].location)
    ensures Rivers[1].name == "Ankobra River" && InsideZone(CreateProtectedZones()[1], Rivers[1].location)
  {
  }

  // ---------------------------------------------------------------------------
  // Marker colours
  // ---------------------------------------------------------------------------

  /** A prediction marker: red for a HIGH label, orange for MEDIUM, green for anything
      else, a CRITICAL label included. */
  function PredictionMarkerColor(riskLevel: string): (c: Color)
    ensures c == Red <==> Contains(riskLevel, "HIGH")
    ensures c == Orange <==> !Contains(riskLevel, "HIGH") && Contains(riskLevel, "MEDIUM")
    ensures c == Green <==> !Contains(riskLevel, "HIGH") && !Contains(riskLevel, "MEDIUM")
  {
    if Contains(riskLevel, "HIGH") then Red
    else if Contains(riskLevel, "MEDIUM") then Orange
    else Green
  }

  /** On the engine's labels: High is red, Medium orange, and both Low and Critical green. */
  lemma PredictionMarkerOnEngineLabels(l: PredictionEngine.RiskLevel)
    ensures PredictionMarkerColor(PredictionEngine.RiskLabel(l)) ==
      (if l == PredictionEngine.High then Red else if l == PredictionEngine.Medium then Orange else Green)
  {
    PredictionEngine.RiskLabelWords(l);
  }

  /** A monitoring marker: red when turbidity exceeds 100 or pH is below 5.5, orange when
      turbidity exceeds 50 or pH is below 6.0, green otherwise. A high pH is not looked at. */
  function MonitoringColor(turbidity: real, ph: real): (c: Color)
    ensures c == Red <==> turbidity > 100.0 || ph < 5.5
    ensures c == Orange <==> !(turbidity > 100.0 || ph < 5.5) && (turbidity > 50.0 || ph < 6.0)
    ensures c == Green <==> turbidity <= 50.0 && ph >= 6.0
  {
    if turbidity > 100.0 || ph < 5.5 then Red
    else if turbidity > 50.0 || ph < 6.0 then Orange
    else Green
  }

  /** The marker colour agrees with the water-quality status as long as pH is at most
      8.0: red exactly for Critical, orange exactly for Warning. Red always means Critical
      and Normal always means green; but an alkaline reading can be Critical and green. */
  lemma MonitoringColorVersusStatus(turbidity: real, ph: real)
    ensures MonitoringColor(turbidity, ph) == Red ==> WaterQualityStatus(turbidity, ph) == Critical
    ensures WaterQualityStatus(turbidity, ph) == Normal ==> MonitoringColor(turbidity, ph) == Green
    ensures ph <= 8.0 ==>
      && (MonitoringColor(turbidity, ph) == Red <==> WaterQualityStatus(turbidity, ph) == Critical)
      && (MonitoringColor(turbidity, ph) == Orange <==> WaterQualityStatus(turbidity, ph) == Warning)
    ensures MonitoringColor(10.0, 9.0) == Green && WaterQualityStatus(10.0, 9.0) == Critical
  {
  }

  /** More turbid water never gets a less alarming marker. */
  lemma MonitoringColorMonotone(t1: real, t2: real, ph: real)
    requires t1 <= t2
    ensures MonitoringColor(t1, ph) == Red ==> MonitoringColor(t2, ph) == Red
    ensures MonitoringColor(t2, ph) == Green ==> MonitoringColor(t1, ph) == Green
  {
  }

  /** An overlay marker: red for a CRITICAL label or a score of at least 80, orange for HIGH
      or at least 60, yellow for MEDIUM or at least 40, green otherwise. */
  function OverlayColor(riskLevel: string, score: real): (c: Color)
    ensures c == Red <==> Contains(riskLevel, "CRITICAL") || score >= 80.0
    ensures c == Orange <==> !(Contains(riskLevel, "CRITICAL") || score >= 80.0) && (Contains(riskLevel, "HIGH") || score >= 60.0)
    ensures c == Yellow <==>
      && !(Contains(riskLevel, "CRITICAL") || score >= 80.0) && !(Contains(riskLevel, "HIGH") || score >= 60.0)
      && (Contains(riskLevel, "MEDIUM") || score >= 40.0)
    ensures c == Green <==>
      !Contains(riskLevel, "CRITICAL") && !Contains(riskLevel, "HIGH") && !Contains(riskLevel, "MEDIUM") && score < 40.0
  {
    if Contains(riskLevel, "CRITICAL") || score >= 80.0 then Red
    else if Contains(riskLevel, "HIGH") || score >= 60.0 then Orange
    else if Contains(riskLevel, "MEDIUM") || score >= 40.0 then Yellow
    else Green
  }

  /** The colour of an engine tier on the overlay. */
  function TierColor(l: PredictionEngine.RiskLevel): Color
  {
    match l
    case Critical => Red
    case High => Orange
    case Medium => Yellow
    case Low => Green
  }

  /** For a point labelled with the engine's tier of its own score, the overlay colour is
      exactly the colour of that tier: the score thresholds of the overlay never override
      the label. */
  lemma OverlayColorMatchesTier(score: real)
    ensures OverlayColor(PredictionEngine.RiskLabel(PredictionEngine.RiskTier(score)), score)
      == TierColor(PredictionEngine.RiskTier(score))
  {
    PredictionEngine.RiskLabelWords(PredictionEngine.RiskTier(score));
  }

  /** The overlay marker radius grows by 1 for every 20 score points. */
  function MarkerRadius(score: real): (r: real)
    ensures score >= 0.0 ==> r >= 8.0
    ensures score <= 100.0 ==> r <= 13.0
  {
    8.0 + score / 20.0
  }

  /** A higher score never gets a smaller marker; 20 more points add exactly 1. */
  lemma MarkerRadiusMonotone(s1: real, s2: real)
    requires s1 <= s2
    ensures MarkerRadius(s1) <= MarkerRadius(s2)
    ensures MarkerRadius(s1 + 20.0) == MarkerRadius(s1) + 1.0
  {
  }

  // ---------------------------------------------------------------------------
  // The maps
  // ---------------------------------------------------------------------------

  /** A prediction to draw on the monitoring map, with its label. */
  datatype LabelledPrediction = LabelledPrediction(riverName: string, location: Point, riskLevel: string)

  datatype Marker = Marker(riverName: string, location: Point, color: Color)

  datatype RiskMarker = RiskMarker(riverName: string, location: Point, color: Color, radius: real)

  /** A drawn map: the monitoring map with zones, prediction and monitoring markers, or the
      overlay map with risk markers and monitoring markers. */
  datatype MapView =
    | WaterMap(zones: seq<Zone>, predictionMarkers: seq<Marker>, monitoringMarkers: seq<Marker>)
    | OverlayMap(riskMarkers: seq<RiskMarker>, monitoringMarkers: seq<Marker>)

  function MonitoringMarkers(rows: seq<Reading>): (ms: seq<Marker>)
    ensures |ms| == |rows|
    ensures forall i | 0 <= i < |rows| ::
      ms[i] == Marker(rows[i].riverName, rows[i].location, MonitoringColor(rows[i].turbidity, rows[i].ph))
  {
    seq(|rows|, i requires 0 <= i < |rows| => Marker(rows[i].riverName, rows[i].location, MonitoringColor(rows[i].turbidity, rows[i].ph)))
  }

  function PredictionMarkers(ps: seq<LabelledPrediction>): (ms: seq<Marker>)
    ensures |ms| == |ps|
    ensures forall i | 0 <= i < |ps| :: ms[i] == Marker(ps[i].riverName, ps[i].location, PredictionMarkerColor(ps[i].riskLevel))
  {
    seq(|ps|, i requires 0 <= i < |ps| => Marker(ps[i].riverName, ps[i].location, PredictionMarkerColor(ps[i].riskLevel)))
  }

  /** The monitoring map: both zones, the predictions when there are any, and one marker
      per row on top. */
  function CreateGhanaWaterMap(rows: seq<Reading>, predictions: Option<seq<LabelledPrediction>>): (m: MapView)
    ensures m.WaterMap? && m.zones == CreateProtectedZones()
    ensures m.monitoringMarkers == MonitoringMarkers(rows)
    ensures |m.predictionMarkers| == if predictions.Some? then |predictions.value| else 0
  {
    WaterMap(CreateProtectedZones(), if predictions.Some? then PredictionMarkers(predictions.value) else [], MonitoringMarkers(rows))
  }

  /** One row of the risk data; a missing value is None. */
  datatype RiskPoint = RiskPoint(lat: Option<real>, lon: Option<real>, riskScore: Option<real>, riskLevel: string, riverName: string)

  /** The risk data frame: its column names and its rows. */
  datatype RiskFrame = RiskFrame(columns: set<string>, points: seq<RiskPoint>)

  const RequiredColumns: set<string> := {"lat", "lon", "risk_score", "risk_level", "river_name"}

  /** A point is drawn only with both coordinates present, latitude in [4, 12] and
      longitude in [-4, 2]. */
  predicate ValidPoint(p: RiskPoint)
  {
    p.lat.Some? && p.lon.Some? && 4.0 <= p.lat.value <= 12.0 && -4.0 <= p.lon.value <= 2.0
  }

  /** The marker of a valid point; a missing score counts as 0. */
  function RiskMarkerFor(p: RiskPoint): (m: RiskMarker)
    requires ValidPoint(p)
    ensures m.location == Point(p.lat.value, p.lon.value)
    ensures p.riskScore.None? ==> m.radius == 8.0 && m.color == OverlayColor(p.riskLevel, 0.0)
  {
    var score := if p.riskScore.Some? then p.riskScore.value else 0.0;
    RiskMarker(p.riverName, Point(p.lat.value, p.lon.value), OverlayColor(p.riskLevel, score), MarkerRadius(score))
  }

  /** The markers of the valid points, in order. */
  function RiskMarkers(points: seq<RiskPoint>): (ms: seq<RiskMarker>)
    ensures |ms| == Count(points, ValidPoint)
  {
    if |points| == 0 then []
    else
      var last := points[|points| - 1];
      RiskMarkers(points[..|points| - 1]) + (if ValidPoint(last) then [RiskMarkerFor(last)] else [])
  }

  /** The overlay map: with non-empty risk data that lacks a required column, or that has
      no valid point, the plain monitoring map; otherwise the risk markers (none without
      risk data) under the monitoring markers. */
  function RiskOverlay(rows: seq<Reading>, riskData: Option<RiskFrame>): MapView
  {
    if riskData.Some? && |riskData.value.points| > 0 then
      if !(RequiredColumns <= riskData.value.columns) then CreateGhanaWaterMap(rows, None)
      else
        var markers := RiskMarkers(riskData.value.points);
        if |markers| == 0 then CreateGhanaWaterMap(rows, None)
        else OverlayMap(markers, MonitoringMarkers(rows))
    else OverlayMap([], MonitoringMarkers(rows))
  }

  /** The fallback happens exactly when the risk data is non-empty and either lacks a
      required column or has no valid point; otherwise every valid point gets a marker. */
  lemma OverlayFallback(rows: seq<Reading>, riskData: Option<RiskFrame>)
    ensures RiskOverlay(rows, riskData).WaterMap? <==>
      && riskData.Some? && |riskData.value.points| > 0
      && (!(RequiredColumns <= riskData.value.columns)
          || forall i | 0 <= i < |riskData.value.points| :: !ValidPoint(riskData.value.points[i]))
    ensures RiskOverlay(rows, riskData).OverlayMap? && riskData.Some? ==>
      |RiskOverlay(rows, riskData).riskMarkers| == Count(riskData.value.points, ValidPoint)
    ensures RiskOverlay(rows, riskData).monitoringMarkers == MonitoringMarkers(rows)
  {
    if riskData.Some? {
      CountPositiveIff(riskData.value.points, ValidPoint);
    }
  }

  /** `create_risk_overlay_map`: the loop over the risk points skips invalid ones and
      counts the drawn ones. */
  method CreateRiskOverlayMap(rows: seq<Reading>, riskData: Option<RiskFrame>) returns (m: MapView)
    ensures m == RiskOverlay(rows, riskData)
  {
    var riskMarkers: seq<RiskMarker> := [];
    if riskData.Some? && |riskData.value.points| > 0 {
      var frame := riskData.value;
      if !(RequiredColumns <= frame.columns) {
        return CreateGhanaWaterMap(rows, None);
      }
      var validPoints := 0;
      var i := 0;
      while i < |frame.points|
        invariant 0 <= i <= |frame.points|
        invariant riskMarkers == RiskMarkers(frame.points[..i])
        invariant validPoints == |riskMarkers|
      {
        assert frame.points[..i + 1][..i] == frame.points[..i];
        var row := frame.points[i];
        if !ValidPoint(row) {
          i := i + 1;
          continue;
        }
        riskMarkers := riskMarkers + [RiskMarkerFor(row)];
        validPoints := validPoints + 1;
        i := i + 1;
      }
      assert frame.points[..i] == frame.points;
      if validPoints == 0 {
        return CreateGhanaWaterMap(rows, None);
      }
    }
    m := OverlayMap(riskMarkers, MonitoringMarkers(rows));
  }
}
