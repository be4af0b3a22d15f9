/** The monitored rivers, the water-quality status rule, and the generator of one round of
    sample readings (data/sample_data.py). The random draws and the clock minute that the
    generator consumes are parameters. */
module SampleData {
  import opened Common

  /** A river's `risk` tag in the station list. */
  datatype RiskClass = LowRisk | MediumRisk | HighRisk

  /** A monitoring station on a river. */
  datatype River = River(name: string, location: Point, risk: RiskClass)

  /** The five monitored rivers, in the order the generator visits them. */
  const Rivers: seq<River> := [
    River("Pra River", Point(5.5, -1.0), HighRisk),
    River("Ankobra River", Point(5.2, -2.2), HighRisk),
    River("Birim River", Point(6.2, -1.1), MediumRisk),
    River("Tano River", Point(6.3, -2.8), MediumRisk),
    River("Offin River", Point(6.2, -1.9), HighRisk)
  ]

  // ---------------------------------------------------------------------------
  // Water-quality status
  // ---------------------------------------------------------------------------

  /** "🔴 Critical", "🟡 Warning" and "🟢 Normal". */
  datatype Status = Critical | Warning | Normal

  /** How alarming a status is: Normal < Warning < Critical. */
  function Severity(s: Status): nat
  {
    match s
    case Normal => 0
    case Warning => 1
    case Critical => 2
  }

  predicate CriticalReading(turbidity: real, ph: real)
  {
    turbidity > 100.0 || ph < 5.5 || ph > 8.5
  }

  predicate WarningReading(turbidity: real, ph: real)
  {
    turbidity > 50.0 || ph < 6.0 || ph > 8.0
  }

  /** The status of a reading: Critical when turbidity exceeds 100 NTU or the pH leaves
      [5.5, 8.5]; otherwise Warning when turbidity exceeds 50 NTU or the pH leaves
      [6.0, 8.0]; otherwise Normal. Every reading gets exactly one status. */
  function WaterQualityStatus(turbidity: real, ph: real): (s: Status)
    ensures s == Critical <==> CriticalReading(turbidity, ph)
    ensures s == Warning <==> !CriticalReading(turbidity, ph) && WarningReading(turbidity, ph)
    ensures s == Normal <==> turbidity <= 50.0 && 6.0 <= ph <= 8.0
  {
    if turbidity > 100.0 || ph < 5.5 || ph > 8.5 then Critical
    else if turbidity > 50.0 || ph < 6.0 || ph > 8.0 then Warning
    else Normal
  }

  /** The thresholds are strict: 100 NTU and pH 5.5 or 8.5 are not Critical, 50 NTU with a
      pH in [6.0, 8.0] is Normal. */
  lemma StatusBoundaries(ph: real)
    ensures WaterQualityStatus(100.0, ph) == Critical <==> ph < 5.5 || ph > 8.5
    ensures 6.0 <= ph <= 8.0 ==> WaterQualityStatus(50.0, ph) == Normal
    ensures WaterQualityStatus(50.0, 5.5) == Warning && WaterQualityStatus(50.0, 8.5) == Warning
  {
  }

  /** More turbid water is never classified as less alarming. */
  lemma StatusMonotoneInTurbidity(t1: real, t2: real, ph: real)
    requires t1 <= t2
    ensures Severity(WaterQualityStatus(t1, ph)) <= Severity(WaterQualityStatus(t2, ph))
  {
  }

  // ---------------------------------------------------------------------------
  // Sample generation
  // ---------------------------------------------------------------------------

  /** One generated row. The formatted timestamp column is not modelled. */
  datatype Reading = Reading(
    riverName: string,
    location: Point,
    turbidity: real,
    ph: real,
    dissolvedOxygen: real,
    riskLevel: RiskClass)

  /** The random values drawn for one river, in the order the generator draws them. */
  datatype SampleDraw = SampleDraw(
    baseTurbidity: int,         // randint(10, 50) for a low-risk river, else randint(50, 150)
    basePh: real,               // uniform(6.0, 7.5) for a low-risk river, else uniform(5.0, 6.5)
    eventRoll: real,            // random() deciding the 5% live pollution event
    eventTurbidityFactor: real, // uniform(2, 4)
    eventPhDrop: real,          // uniform(0.5, 1.5)
    spikeRoll: real,            // random() deciding the spike of a high-risk river
    turbidityNoise: int,        // randint(-10, 10)
    phNoise: real,              // uniform(-0.5, 0.5)
    dissolvedOxygen: real)      // uniform(2.0, 8.0)

  /** What every generated row satisfies whatever the draws: it is the given river's row,
      turbidity is at least 1 NTU and the pH lies in [4.0, 9.0]. */
  predicate RowFor(r: Reading, river: River, d: SampleDraw)
  {
    && r.riverName == river.name
    && r.location == river.location
    && r.riskLevel == river.risk
    && r.dissolvedOxygen == d.dissolvedOxygen
    && r.turbidity >= 1.0
    && 4.0 <= r.ph <= 9.0
  }

  /** The row generated for one river from its draws. With live variation the clock
      minute (mod 30) raises turbidity and lowers pH, and a roll above 0.95 multiplies
      turbidity and lowers pH further; a high-risk river whose roll exceeds 0.7 triples
      turbidity and loses 1.5 pH. Whatever the draws, the clamps after the noise make it a
      row of that river with turbidity at least 1 and pH in [4.0, 9.0]. */
  function SampleRow(river: River, d: SampleDraw, includeLiveVariation: bool, minute: nat): (r: Reading)
    ensures RowFor(r, river, d)
  {
    var timeVariation := minute % 30;
    var event := includeLiveVariation && d.eventRoll > 0.95;
    var spike := river.risk == HighRisk && d.spikeRoll > 0.7;
    var t0 := d.baseTurbidity as real + (if includeLiveVariation then (timeVariation * 2) as real else 0.0);
    var p0 := d.basePh - (if includeLiveVariation then timeVariation as real * 0.02 else 0.0);
    var t1 := if event then t0 * d.eventTurbidityFactor else t0;
    var p1 := if event then p0 - d.eventPhDrop else p0;
    var t2 := if spike then t1 * 3.0 else t1;
    var p2 := if spike then p1 - 1.5 else p1;
    Reading(river.name, river.location, Max(1.0, t2 + d.turbidityNoise as real),
            Max(4.0, Min(9.0, p2 + d.phNoise)), d.dissolvedOxygen, river.risk)
  }

  /** One round of readings: exactly one row per listed river, in list order, each the
      river's row for its own draws. */
  method GenerateSampleData(includeLiveVariation: bool, minute: nat, draws: seq<SampleDraw>)
    returns (data: seq<Reading>)
    requires |draws| == |Rivers|
    ensures |data| == |Rivers|
    ensures forall i | 0 <= i < |data| :: data[i] == SampleRow(Rivers[i], draws[i], includeLiveVariation, minute)
    ensures forall i | 0 <= i < |data| :: RowFor(data[i], Rivers[i], draws[i])
  {
    data := [];
    var i := 0;
    while i < |Rivers|
      invariant 0 <= i <= |Rivers|
      invariant |data| == i
      invariant forall j | 0 <= j < i :: data[j] == SampleRow(Rivers[j], draws[j], includeLiveVariation, minute)
    {
      var record := GenerateRow(Rivers[i], draws[i], includeLiveVariation, minute);
      data := data + [record];
      i := i + 1;
    }
  }

  /** The loop body for one river: the base values drawn, shifted in place by the live
      variation, the pollution event and the spike, then noised and clamped. */
  method GenerateRow(river: River, d: SampleDraw, includeLiveVariation: bool, minute: nat) returns (record: Reading)
    ensures record == SampleRow(river, d, includeLiveVariation, minute)
  {
    var baseTurbidity: real := d.baseTurbidity as real;
    var basePh: real := d.basePh;
    if includeLiveVariation {
      var timeVariation := minute % 30;
      baseTurbidity := baseTurbidity + (timeVariation * 2) as real;
      basePh := basePh - timeVariation as real * 0.02;
      if d.eventRoll > 0.95 {
        baseTurbidity := baseTurbidity * d.eventTurbidityFactor;
        basePh := basePh - d.eventPhDrop;
      }
    }
    if river.risk == HighRisk && d.spikeRoll > 0.7 {
      baseTurbidity := baseTurbidity * 3.0;
      basePh := basePh - 1.5;
    }
    record := Reading(
      river.name,
      river.location,
      Max(1.0, baseTurbidity + d.turbidityNoise as real),
      Max(4.0, Min(9.0, basePh + d.phNoise)),
      d.dissolvedOxygen,
      river.risk);
  }

  /** The number of Critical rows in a round of readings. */
  function CriticalCount(rows: seq<Reading>): (n: nat)
    ensures n <= |rows|
    ensures n == 0 <==> forall i | 0 <= i < |rows| :: WaterQualityStatus(rows[i].turbidity, rows[i].ph) != Critical
  {
    CountPositiveIff(rows, IsCritical);
    Count(rows, IsCritical)
  }

  predicate IsCritical(r: Reading)
  {
    WaterQualityStatus(r.turbidity, r.ph) == Critical
  }
}
