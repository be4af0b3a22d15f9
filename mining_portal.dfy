/** The mining company portal (pages/6_Mining_Portal.py): the access guard, the daily
    compliance rule of the simulated operations data, the mine selection, and the headline
    metrics and compliance scorecard computed from the rows. The random draws and today's
    weekday are parameters; a row's date is its offset in days before today. */
module MiningPortal {
  import opened Common

  // ---------------------------------------------------------------------------
  // Access guard
  // ---------------------------------------------------------------------------

  datatype Guard = AuthenticationRequired | AccessDenied | PortalGranted

  /** The page stops unless the session is authenticated and has the portal flag. */
  function PortalGuard(authenticated: bool, showMiningPortal: bool): (g: Guard)
    ensures g == PortalGranted <==> authenticated && showMiningPortal
    ensures g == AuthenticationRequired <==> !authenticated
    ensures g == AccessDenied <==> authenticated && !showMiningPortal
  {
    if !authenticated then AuthenticationRequired
    else if !showMiningPortal then AccessDenied
    else PortalGranted
  }

  // ---------------------------------------------------------------------------
  // Compliance rule
  // ---------------------------------------------------------------------------

  /** "🟢 Compliant", "🟡 Warning" and "🔴 Non-Compliant". */
  datatype Compliance = Compliant | ComplianceWarning | NonCompliant

  predicate NonCompliantDay(turbidity: real, ph: real, dissolvedOxygen: real)
  {
    turbidity > 100.0 || ph < 6.0 || dissolvedOxygen < 5.0
  }

  predicate WarningDay(turbidity: real, ph: real, dissolvedOxygen: real)
  {
    turbidity > 70.0 || ph < 6.5 || dissolvedOxygen < 6.0
  }

  /** A day is Non-Compliant when turbidity exceeds 100 NTU, pH is below 6.0 or dissolved
      oxygen is below 5.0 mg/L; otherwise Warning when turbidity exceeds 70, pH is below
      6.5 or oxygen is below 6.0; otherwise Compliant. */
  function ComplianceStatus(turbidity: real, ph: real, dissolvedOxygen: real): (c: Compliance)
    ensures c == NonCompliant <==> NonCompliantDay(turbidity, ph, dissolvedOxygen)
    ensures c == ComplianceWarning <==> !NonCompliantDay(turbidity, ph, dissolvedOxygen) && WarningDay(turbidity, ph, dissolvedOxygen)
    ensures c == Compliant <==> turbidity <= 70.0 && ph >= 6.5 && dissolvedOxygen >= 6.0
  {
    if turbidity > 100.0 || ph < 6.0 || dissolvedOxygen < 5.0 then NonCompliant
    else if turbidity > 70.0 || ph < 6.5 || dissolvedOxygen < 6.0 then ComplianceWarning
    else Compliant
  }

  function ComplianceRank(c: Compliance): nat
  {
    match c
    case Compliant => 0
    case ComplianceWarning => 1
    case NonCompliant => 2
  }

  /** More turbid water or less oxygen never improves a day's status. */
  lemma ComplianceMonotone(t1: real, t2: real, ph: real, o1: real, o2: real)
    requires t1 <= t2 && o2 <= o1
    ensures ComplianceRank(ComplianceStatus(t1, ph, o1)) <= ComplianceRank(ComplianceStatus(t2, ph, o2))
  {
  }

  // ---------------------------------------------------------------------------
  // Rounding to two decimals
  // ---------------------------------------------------------------------------

  /** `round(x, 2)`, rounding halves up. */
  function Round2(x: real): real
  {
    ((x * 100.0 + 0.5).Floor as real) / 100.0
  }

  /** Rounding moves a value by at most half a hundredth and never reorders two values. */
  lemma Round2Facts(x: real, y: real)
    ensures x - 0.005 <= Round2(x) <= x + 0.005
    ensures x <= y ==> Round2(x) <= Round2(y)
  {
    var fx := (x * 100.0 + 0.5).Floor;
    var fy := (y * 100.0 + 0.5).Floor;
    assert fx as real <= x * 100.0 + 0.5 < fx as real + 1.0;
    if x <= y {
      assert fx <= fy;
    }
  }

  /** A value at or above a number of hundredths still is after rounding. */
  lemma Round2KeepsBound(x: real, k: int)
    requires x >= k as real / 100.0
    ensures Round2(x) >= k as real / 100.0
  {
    var f := (x * 100.0 + 0.5).Floor;
    assert x * 100.0 >= k as real;
    assert k <= f;
  }

  /** A value at or below a number of hundredths still is after rounding. */
  lemma Round2KeepsUpperBound(x: real, k: int)
    requires x <= k as real / 100.0
    ensures Round2(x) <= k as real / 100.0
  {
    var f := (x * 100.0 + 0.5).Floor;
    assert x * 100.0 <= k as real;
    assert f <= k;
  }

  // ---------------------------------------------------------------------------
  // Operations data
  // ---------------------------------------------------------------------------

  /** The random values drawn for one day, in the order they are drawn. */
  datatype DayDraw = DayDraw(
    baseTurbidity: int,          // randint(40, 120)
    basePh: real,                // uniform(6.2, 7.5)
    baseDo: real,                // uniform(4.5, 7.5)
    eventRoll: real,             // random() deciding the 5% operational event
    eventTurbidityFactor: real,  // uniform(1.5, 3.0)
    eventPhDrop: real,           // uniform(0.5, 1.2)
    throughput: int,             // randint(50000, 150000)
    waterUsage: int,             // randint(5000, 15000)
    treatmentCost: int)          // randint(5000, 20000)

  /** One day's row; `daysAgo` stands for the date. */
  datatype OperationsRow = OperationsRow(
    daysAgo: nat, turbidity: real, ph: real, dissolvedOxygen: real, compliance: Compliance,
    mine: string, throughput: int, waterUsage: int, treatmentCost: int)

  /** Monday is 0 and Sunday 6; the date `i` days before a day with weekday `w`. */
  function WeekdayBefore(w: int, i: nat): (d: int)
    ensures 0 <= d < 7
  {
    (w - i) % 7
  }

  /** A day's measured values before rounding. */
  datatype DayValues = DayValues(turbidity: real, ph: real, dissolvedOxygen: real)

  /** The day's values: a roll above 0.95 multiplies turbidity by the event factor and
      lowers pH by the drop; on a Saturday or Sunday (weekday 5 or 6) turbidity then drops
      to 70% and oxygen rises by 10%. pH is never touched by the weekend. */
  function DayValuesOf(d: DayDraw, weekday: int): (v: DayValues)
    ensures v.ph == if d.eventRoll > 0.95 then d.basePh - d.eventPhDrop else d.basePh
    ensures weekday < 5 ==> v.dissolvedOxygen == d.baseDo
    ensures weekday < 5 && d.eventRoll <= 0.95 ==> v.turbidity == d.baseTurbidity as real
  {
    var t := if d.eventRoll > 0.95 then d.baseTurbidity as real * d.eventTurbidityFactor else d.baseTurbidity as real;
    var ph := if d.eventRoll > 0.95 then d.basePh - d.eventPhDrop else d.basePh;
    if weekday >= 5 then DayValues(t * 0.7, ph, d.baseDo * 1.1) else DayValues(t, ph, d.baseDo)
  }

  /** A weekend day reads 70% of the weekday turbidity and 110% of the weekday oxygen for
      the same draws. */
  lemma WeekendEffect(d: DayDraw, weekend: int, weekday: int)
    requires 5 <= weekend && weekday < 5
    ensures DayValuesOf(d, weekend).turbidity == 0.7 * DayValuesOf(d, weekday).turbidity
    ensures DayValuesOf(d, weekend).dissolvedOxygen == 1.1 * DayValuesOf(d, weekday).dissolvedOxygen
    ensures DayValuesOf(d, weekend).ph == DayValuesOf(d, weekday).ph
  {
  }

  /** The row generated `i` days before a day with weekday `todayWeekday`: the status is
      the compliance rule applied to the values before rounding, pH and oxygen are stored
      rounded to two decimals and turbidity as is. */
  function DayRow(mine: string, i: nat, todayWeekday: int, d: DayDraw): OperationsRow
  {
    var v := DayValuesOf(d, WeekdayBefore(todayWeekday, i));
    OperationsRow(i, v.turbidity, Round2(v.ph), Round2(v.dissolvedOxygen),
                  ComplianceStatus(v.turbidity, v.ph, v.dissolvedOxygen),
                  mine, d.throughput, d.waterUsage, d.treatmentCost)
  }

  /** The stored values of a row bound its status, whatever the rounding did: a Compliant
      row shows turbidity of at most 70, pH of at least 6.5 (and of at most 8.5 when the
      drawn pH is and the drop is non-negative) and oxygen of at least 6.0, and a row
      showing turbidity of at most 100, pH of at least 6.01 and oxygen of at least 5.01 is
      not Non-Compliant. */
  lemma RowBounds(mine: string, i: nat, todayWeekday: int, d: DayDraw)
    ensures var r := DayRow(mine, i, todayWeekday, d);
      r.compliance == Compliant ==> r.turbidity <= 70.0 && r.ph >= 6.5 && r.dissolvedOxygen >= 6.0
    ensures var r := DayRow(mine, i, todayWeekday, d);
      r.compliance == Compliant && d.basePh <= 8.5 && d.eventPhDrop >= 0.0 ==> r.ph <= 8.5
    ensures var r := DayRow(mine, i, todayWeekday, d);
      r.turbidity <= 100.0 && r.ph >= 6.01 && r.dissolvedOxygen >= 5.01 ==> r.compliance != NonCompliant
  {
    var v := DayValuesOf(d, WeekdayBefore(todayWeekday, i));
    var r := DayRow(mine, i, todayWeekday, d);
    if r.compliance == Compliant {
      Round2KeepsBound(v.ph, 650);
      Round2KeepsBound(v.dissolvedOxygen, 600);
      if d.basePh <= 8.5 && d.eventPhDrop >= 0.0 {
        Round2KeepsUpperBound(v.ph, 850);
      }
    }
    if r.turbidity <= 100.0 && r.ph >= 6.01 && r.dissolvedOxygen >= 5.01 {
      if v.ph < 6.0 {
        Round2KeepsUpperBound(v.ph, 600);
      }
      if v.dissolvedOxygen < 5.0 {
        Round2KeepsUpperBound(v.dissolvedOxygen, 500);
      }
    }
  }

  /** `generate_mining_operations_data(mine, days)`: one row per day from today backwards,
      row `i` dated `i` days ago. */
  method GenerateMiningOperationsData(mineName: string, days: nat, todayWeekday: int, draws: seq<DayDraw>)
    returns (data: seq<OperationsRow>)
    requires |draws| == days
    ensures |data| == days
    ensures forall i | 0 <= i < days :: data[i] == DayRow(mineName, i, todayWeekday, draws[i])
  {
    data := [];
    var i := 0;
    while i < days
      invariant 0 <= i <= days
      invariant |data| == i
      invariant forall j | 0 <= j < i :: data[j] == DayRow(mineName, j, todayWeekday, draws[j])
    {
      var d := draws[i];
      var baseTurbidity: real := d.baseTurbidity as real;
      var basePh := d.basePh;
      var baseDo := d.baseDo;
      if d.eventRoll > 0.95 {
        baseTurbidity := baseTurbidity * d.eventTurbidityFactor;
        basePh := basePh - d.eventPhDrop;
      }
      if WeekdayBefore(todayWeekday, i) >= 5 {
        baseTurbidity := baseTurbidity * 0.7;
        baseDo := baseDo * 1.1;
      }
      var compliance := Compliant;
      if baseTurbidity > 100.0 || basePh < 6.0 || baseDo < 5.0 {
        compliance := NonCompliant;
      } else if baseTurbidity > 70.0 || basePh < 6.5 || baseDo < 6.0 {
        compliance := ComplianceWarning;
      }
      var row := OperationsRow(i, baseTurbidity, Round2(basePh), Round2(baseDo), compliance,
                               mineName, d.throughput, d.waterUsage, d.treatmentCost);
      data := data + [row];
      i := i + 1;
    }
  }

  // ---------------------------------------------------------------------------
  // Mine selection and metrics
  // ---------------------------------------------------------------------------

  /** Both operations concatenated, otherwise Tarkwa's rows when the choice names Tarkwa,
      else Damang's. */
  function SelectMiningData(selectedMine: string, tarkwa: seq<OperationsRow>, damang: seq<OperationsRow>)
    : (rows: seq<OperationsRow>)
    ensures selectedMine == "Both Operations" ==> rows == tarkwa + damang
    ensures selectedMine != "Both Operations" ==> rows == if Contains(selectedMine, "Tarkwa") then tarkwa else damang
  {
    if selectedMine == "Both Operations" then tarkwa + damang
    else if Contains(selectedMine, "Tarkwa") then tarkwa else damang
  }

  /** The three choices the selector offers pick the intended rows. */
  lemma SelectorChoices(tarkwa: seq<OperationsRow>, damang: seq<OperationsRow>)
    ensures SelectMiningData("Tarkwa Gold Mine", tarkwa, damang) == tarkwa
    ensures SelectMiningData("Damang Gold Mine", tarkwa, damang) == damang
    ensures SelectMiningData("Both Operations", tarkwa, damang) == tarkwa + damang
  {
    assert OccursAt("Tarkwa Gold Mine", "Tarkwa", 0);
    MissingCharNotContained("Damang Gold Mine", "Tarkwa", 0);
  }

  predicate IsCompliant(r: OperationsRow) { r.compliance == Compliant }

  predicate IsNonCompliant(r: OperationsRow) { r.compliance == NonCompliant }

  predicate TurbidityOk(r: OperationsRow) { r.turbidity <= 100.0 }

  predicate PhOk(r: OperationsRow) { 6.0 <= r.ph <= 8.5 }

  predicate OxygenOk(r: OperationsRow) { r.dissolvedOxygen >= 5.0 }

  /** The mean of a boolean column, as a percentage; None (NaN) for no rows. */
  function PercentWhere(rows: seq<OperationsRow>, p: OperationsRow -> bool): (v: Option<real>)
    ensures |rows| == 0 <==> v.None?
    ensures v.Some? ==> 0.0 <= v.value <= 100.0
  {
    if |rows| == 0 then None else Some(Percent(Count(rows, p), |rows|))
  }

  /** The compliance rate: the percentage of Compliant rows. */
  function ComplianceRate(rows: seq<OperationsRow>): (v: Option<real>)
    ensures |rows| == 0 <==> v.None?
    ensures v.Some? ==> 0.0 <= v.value <= 100.0
    ensures v.Some? ==> (v.value == 100.0 <==> forall i | 0 <= i < |rows| :: IsCompliant(rows[i]))
    ensures v.Some? ==> (v.value == 0.0 <==> forall i | 0 <= i < |rows| :: !IsCompliant(rows[i]))
  {
    CountAllIff(rows, IsCompliant);
    CountPositiveIff(rows, IsCompliant);
    PercentWhere(rows, IsCompliant)
  }

  /** The number of Non-Compliant rows. */
  function Incidents(rows: seq<OperationsRow>): (n: nat)
    ensures n <= |rows|
    ensures n == 0 <==> forall i | 0 <= i < |rows| :: !IsNonCompliant(rows[i])
  {
    CountPositiveIff(rows, IsNonCompliant);
    Count(rows, IsNonCompliant)
  }

  /** The four scorecard percentages. */
  datatype Scorecard = Scorecard(turbidity: Option<real>, ph: Option<real>, oxygen: Option<real>, overall: Option<real>)

  function ComplianceScorecard(rows: seq<OperationsRow>): Scorecard
  {
    Scorecard(PercentWhere(rows, TurbidityOk), PercentWhere(rows, PhOk), PercentWhere(rows, OxygenOk), ComplianceRate(rows))
  }

  /** Compliant rows pass each parameter's check, so the turbidity, oxygen and (when no
      Compliant row is above pH 8.5) pH percentages are never below the compliance rate. */
  lemma ScorecardAtLeastRate(rows: seq<OperationsRow>)
    requires forall i | 0 <= i < |rows| :: IsCompliant(rows[i]) ==> rows[i].turbidity <= 70.0 && rows[i].ph >= 6.5 && rows[i].dissolvedOxygen >= 6.0
    requires |rows| > 0
    ensures ComplianceScorecard(rows).turbidity.value >= ComplianceScorecard(rows).overall.value
    ensures ComplianceScorecard(rows).oxygen.value >= ComplianceScorecard(rows).overall.value
    ensures (forall i | 0 <= i < |rows| :: IsCompliant(rows[i]) ==> rows[i].ph <= 8.5) ==>
      ComplianceScorecard(rows).ph.value >= ComplianceScorecard(rows).overall.value
  {
    CountMonotone(rows, IsCompliant, TurbidityOk);
    CountMonotone(rows, IsCompliant, OxygenOk);
    PercentMonotone(Count(rows, IsCompliant), Count(rows, TurbidityOk), |rows|);
    PercentMonotone(Count(rows, IsCompliant), Count(rows, OxygenOk), |rows|);
    if forall i | 0 <= i < |rows| :: IsCompliant(rows[i]) ==> rows[i].ph <= 8.5 {
      CountMonotone(rows, IsCompliant, PhOk);
      PercentMonotone(Count(rows, IsCompliant), Count(rows, PhOk), |rows|);
    }
  }

  /** Generated rows meet the requirement of the scorecard lemma, and with the drawn pH at
      most 8.5 and a non-negative pH drop, so does the pH clause. */
  lemma GeneratedRowsScore(rows: seq<OperationsRow>, mine: string, todayWeekday: int, draws: seq<DayDraw>)
    requires |rows| == |draws|
    requires forall i | 0 <= i < |rows| :: rows[i] == DayRow(mine, i, todayWeekday, draws[i])
    ensures forall i | 0 <= i < |rows| :: IsCompliant(rows[i]) ==>
      rows[i].turbidity <= 70.0 && rows[i].ph >= 6.5 && rows[i].dissolvedOxygen >= 6.0
    ensures (forall i | 0 <= i < |rows| :: draws[i].basePh <= 8.5 && draws[i].eventPhDrop >= 0.0) ==>
      forall i | 0 <= i < |rows| :: IsCompliant(rows[i]) ==> rows[i].ph <= 8.5
  {
    forall i | 0 <= i < |rows| ensures IsCompliant(rows[i]) ==>
      rows[i].turbidity <= 70.0 && rows[i].ph >= 6.5 && rows[i].dissolvedOxygen >= 6.0
      && (draws[i].basePh <= 8.5 && draws[i].eventPhDrop >= 0.0 ==> rows[i].ph <= 8.5)
    {
      RowBounds(mine, i, todayWeekday, draws[i]);
    }
  }

  datatype Caption = StandardMet | NeedsImprovement | BelowStandard

  /** The caption under a scorecard value: 95 and above meets the standard, 80 and above
      needs improvement, anything lower, and an undefined value, is below standard. */
  function ScorecardCaption(value: Option<real>): (c: Caption)
    ensures c == StandardMet <==> value.Some? && value.value >= 95.0
    ensures c == NeedsImprovement <==> value.Some? && 80.0 <= value.value < 95.0
    ensures c == BelowStandard <==> value.None? || value.value < 80.0
  {
    if value.Some? && value.value >= 95.0 then StandardMet
    else if value.Some? && value.value >= 80.0 then NeedsImprovement
    else BelowStandard
  }
}
