/** Validation of predictions against the recorded pollution events (data/validation_data.py):
    an event is matched when some prediction close to it scores above 50, a prediction
    scoring above 50 with no event near it is a false positive, and accuracy, precision and
    recall are percentages of those counts. Distances are compared through their squares:
    a distance below 0.8 degrees is a squared distance below 0.64. */
module ValidationData {
  import opened Common

  /** A recorded pollution event; the free-text impact description is not modelled. */
  datatype HistoricalEvent = HistoricalEvent(river: string, date: string, location: Point, eventType: string, severity: string)

  /** The seven recorded events, all verified. */
  const HistoricalEvents: seq<HistoricalEvent> := [
    HistoricalEvent("Pra River", "2019-03-15", Point(5.65, -1.10), "mercury_contamination", "high"),
    HistoricalEvent("Ankobra River", "2021-07-22", Point(5.30, -2.35), "fish_kill", "critical"),
    HistoricalEvent("Birim River", "2018-11-10", Point(6.25, -1.15), "diamond_mining_waste", "medium"),
    HistoricalEvent("Offin River", "2022-05-30", Point(6.20, -1.85), "turbidity_spike", "high"),
    HistoricalEvent("Tano River", "2020-09-18", Point(6.35, -2.85), "gold_mining_runoff", "medium"),
    HistoricalEvent("Pra River", "2020-08-12", Point(5.58, -1.25), "sedimentation", "medium"),
    HistoricalEvent("Birim River", "2019-06-25", Point(6.18, -1.08), "mining_runoff", "high")
  ]

  /** What validation reads of a prediction: where it is and its score. */
  datatype ScoredPoint = ScoredPoint(location: Point, riskScore: real)

  /** The distance below which an event and a prediction are near each other, in degrees. */
  const MatchRadius: real := 0.8

  /** `calculate_distance(a, b) < 0.8`, stated on the squared distance. */
  predicate Near(a: Point, b: Point)
  {
    SqDist(a, b) < MatchRadius * MatchRadius
  }

  /** Nearness does not depend on the order of the two points, and a point is near itself. */
  lemma NearSymmetricReflexive(a: Point, b: Point)
    ensures Near(a, b) <==> Near(b, a)
    ensures Near(a, a)
  {
    SqDistSymmetric(a, b);
    SqDistZeroOnSamePoint(a);
  }

  predicate HighScore(p: ScoredPoint)
  {
    p.riskScore > 50.0
  }

  /** Prediction `p` supports event `e`: near it (strictly) and scoring strictly above 50. */
  predicate Supports(p: ScoredPoint, e: HistoricalEvent)
  {
    Near(e.location, p.location) && HighScore(p)
  }

  predicate EventMatched(e: HistoricalEvent, preds: seq<ScoredPoint>)
  {
    exists j | 0 <= j < |preds| :: Supports(preds[j], e)
  }

  predicate HasNearbyEvent(p: ScoredPoint)
  {
    exists i | 0 <= i < |HistoricalEvents| :: Near(HistoricalEvents[i].location, p.location)
  }

  predicate FalsePositive(p: ScoredPoint)
  {
    HighScore(p) && !HasNearbyEvent(p)
  }

  /** The number of matched events. */
  function Matches(preds: seq<ScoredPoint>): (n: nat)
    ensures n <= |HistoricalEvents|
  {
    Count(HistoricalEvents, e => EventMatched(e, preds))
  }

  /** The number of false positives. */
  function FalsePositives(preds: seq<ScoredPoint>): (n: nat)
    ensures n <= |preds|
  {
    Count(preds, FalsePositive)
  }

  /** The source's four counters. */
  datatype Tally = Tally(matches: nat, truePositives: nat, falsePositives: nat, falseNegatives: nat)

  /** The returned dictionary without its formatting: the three percentages, the number of
      tested events and, on a non-empty input only, the number of matched events. */
  datatype Report = Report(accuracy: real, precision: real, recall: real, testedEvents: nat, matchedEvents: Option<nat>)

  /** The report for the empty input: "0%" everywhere, no events tested. */
  const EmptyReport: Report := Report(0.0, 0.0, 0.0, 0, None)

  function Ratio(part: nat, whole: nat): (p: real)
    requires part <= whole
    ensures 0.0 <= p <= 100.0
    ensures whole == 0 ==> p == 0.0
  {
    if whole > 0 then Percent(part, whole) else 0.0
  }

  /** The report as a function of the counters. */
  function ReportOf(t: Tally): Report
    requires t.truePositives + t.falseNegatives == |HistoricalEvents|
    requires t.matches <= |HistoricalEvents|
  {
    Report(
      Ratio(t.matches, |HistoricalEvents|),
      Ratio(t.truePositives, t.truePositives + t.falsePositives),
      Ratio(t.truePositives, t.truePositives + t.falseNegatives),
      |HistoricalEvents|,
      Some(t.matches))
  }

  /** The counters a non-empty input produces. */
  function TallyOf(preds: seq<ScoredPoint>): (t: Tally)
    ensures t.truePositives + t.falseNegatives == |HistoricalEvents|
    ensures t.matches == t.truePositives
  {
    var m := Matches(preds);
    Tally(m, m, FalsePositives(preds), |HistoricalEvents| - m)
  }

  /** The report of `validate_predictions`. */
  function Validate(preds: seq<ScoredPoint>): Report
  {
    if |preds| == 0 then EmptyReport else ReportOf(TallyOf(preds))
  }

  /** `validate_predictions`: an empty input gives the empty report; otherwise the two
      counting loops fill the counters and the report is computed from them. */
  method ValidatePredictions(preds: seq<ScoredPoint>) returns (report: Report, tally: Tally)
    ensures |preds| == 0 ==> report == EmptyReport
    ensures |preds| > 0 ==>
      && tally.matches == Matches(preds)
      && tally.truePositives == tally.matches
      && tally.matches + tally.falseNegatives == |HistoricalEvents|
      && tally.falsePositives == FalsePositives(preds)
      && report == ReportOf(tally)
    ensures report == Validate(preds)
  {
    tally := Tally(0, 0, 0, 0);
    if |preds| == 0 {
      return EmptyReport, tally;
    }
    var matches, truePositives, falseNegatives := CountEventMatches(preds);
    var falsePositives := CountFalsePositives(preds);
    tally := Tally(matches, truePositives, falsePositives, falseNegatives);
    report := ReportOf(tally);
  }

  /** The first loop: for each event, scan the predictions until one supports it, counting
      a match and a true positive, or else a false negative. */
  method CountEventMatches(preds: seq<ScoredPoint>) returns (matches: nat, truePositives: nat, falseNegatives: nat)
    ensures matches == truePositives == Matches(preds)
    ensures matches + falseNegatives == |HistoricalEvents|
  {
    matches, truePositives, falseNegatives := 0, 0, 0;
    ghost var matched := e => EventMatched(e, preds);
    var i := 0;
    while i < |HistoricalEvents|
      invariant 0 <= i <= |HistoricalEvents|
      invariant matches == truePositives == Count(HistoricalEvents[..i], matched)
      invariant matches + falseNegatives == i
    {
      var event := HistoricalEvents[i];
      var eventMatched := false;
      var j := 0;
      while j < |preds|
        invariant 0 <= j <= |preds|
        invariant eventMatched ==> EventMatched(event, preds)
        invariant !eventMatched ==> forall k | 0 <= k < j :: !Supports(preds[k], event)
        invariant truePositives == Count(HistoricalEvents[..i], matched) + (if eventMatched then 1 else 0)
      {
        if Near(event.location, preds[j].location) && preds[j].riskScore > 50.0 {
          eventMatched := true;
          truePositives := truePositives + 1;
          break;
        }
        j := j + 1;
      }
      CountStep(HistoricalEvents, matched, i);
      if eventMatched {
        matches := matches + 1;
      } else {
        falseNegatives := falseNegatives + 1;
      }
      i := i + 1;
    }
    assert HistoricalEvents[..i] == HistoricalEvents;
  }

  /** The second loop: for each prediction scoring above 50, scan the events until one is
      near it, counting a false positive when none is. */
  method CountFalsePositives(preds: seq<ScoredPoint>) returns (falsePositives: nat)
    ensures falsePositives == FalsePositives(preds)
  {
    falsePositives := 0;
    var k := 0;
    while k < |preds|
      invariant 0 <= k <= |preds|
      invariant falsePositives == Count(preds[..k], FalsePositive)
    {
      var prediction := preds[k];
      if prediction.riskScore > 50.0 {
        var hasNearbyEvent := false;
        var e := 0;
        while e < |HistoricalEvents|
          invariant 0 <= e <= |HistoricalEvents|
          invariant hasNearbyEvent ==> HasNearbyEvent(prediction)
          invariant !hasNearbyEvent ==> forall x | 0 <= x < e :: !Near(HistoricalEvents[x].location, prediction.location)
        {
          if Near(HistoricalEvents[e].location, prediction.location) {
            hasNearbyEvent := true;
            break;
          }
          e := e + 1;
        }
        if !hasNearbyEvent {
          falsePositives := falsePositives + 1;
        }
      }
      CountStep(preds, FalsePositive, k);
      k := k + 1;
    }
    assert preds[..k] == preds;
  }

  // ---------------------------------------------------------------------------
  // Properties of the report
  // ---------------------------------------------------------------------------

  /** Every event is either matched or a false negative, so recall, whose denominator is
      the number of events, always equals accuracy. */
  lemma RecallEqualsAccuracy(preds: seq<ScoredPoint>)
    ensures Validate(preds).recall == Validate(preds).accuracy
  {
  }

  /** False positives are among the predictions scoring above 50. */
  lemma FalsePositivesBounded(preds: seq<ScoredPoint>)
    ensures FalsePositives(preds) <= Count(preds, HighScore)
  {
    CountMonotone(preds, FalsePositive, HighScore);
  }

  /** With no prediction scoring above 50 nothing is matched and nothing is a false
      positive, so precision, accuracy and recall are all 0. */
  lemma NoHighScoreNoCredit(preds: seq<ScoredPoint>)
    requires forall j | 0 <= j < |preds| :: !HighScore(preds[j])
    ensures Matches(preds) == 0 && FalsePositives(preds) == 0
    ensures Validate(preds).precision == 0.0
    ensures Validate(preds).accuracy == 0.0 && Validate(preds).recall == 0.0
  {
    CountNone(HistoricalEvents, e => EventMatched(e, preds));
    CountNone(preds, FalsePositive);
  }

  /** An event is matched exactly when some prediction strictly within 0.8 degrees scores
      strictly above 50; in particular a score of exactly 50 never matches. */
  lemma MatchNeedsStrictScore(e: HistoricalEvent, p: ScoredPoint)
    requires p.riskScore == 50.0
    ensures !EventMatched(e, [p])
  {
  }

  /** A prediction placed on an event's location with a score above 50 matches that event
      and is not a false positive. */
  lemma PredictionOnEventMatches(preds: seq<ScoredPoint>, i: nat, j: nat)
    requires i < |HistoricalEvents| && j < |preds|
    requires preds[j].location == HistoricalEvents[i].location && HighScore(preds[j])
    ensures EventMatched(HistoricalEvents[i], preds)
    ensures !FalsePositive(preds[j])
    ensures Matches(preds) > 0
  {
    NearSymmetricReflexive(HistoricalEvents[i].location, preds[j].location);
    CountPositiveIff(HistoricalEvents, e => EventMatched(e, preds));
    assert (e => EventMatched(e, preds))(HistoricalEvents[i]);
  }
}
