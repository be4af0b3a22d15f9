/** Alert sending (utils/alert_system.py): `check_and_alert` walks the Critical rows of a
    round of readings and the high-risk predictions and counts the alerts it sends. The
    Telegram transport is not modelled: the result of the k-th prediction alert is the
    oracle `delivered(k)`, and the current-alert results, which the source ignores, are not
    needed. Message texts are not modelled; an alert is identified by what it reports. */
module AlertSystem {
  import opened Common
  import opened SampleData
  import PredictionEngine

  datatype Parameter = Turbidity | PhLevel

  /** A current-data alert: river, offending parameter, its value and threshold, status. */
  datatype CurrentAlert = CurrentAlert(riverName: string, parameter: Parameter, value: real, threshold: real, status: Status)

  /** What alerting reads of a prediction. */
  datatype AlertPrediction = AlertPrediction(riverName: string, riskLevel: string, riskScore: real)

  /** The alert a Critical row triggers: turbidity above 100 first, else pH below 5.5; a
      row that is Critical only through a pH above 8.5 triggers none. */
  function AlertFor(r: Reading): (a: Option<CurrentAlert>)
    ensures a.Some? <==> IsCritical(r) && (r.turbidity > 100.0 || r.ph < 5.5)
    ensures a.Some? && r.turbidity > 100.0 ==> a.value == CurrentAlert(r.riverName, Turbidity, r.turbidity, 100.0, Critical)
    ensures a.Some? && r.turbidity <= 100.0 ==> a.value == CurrentAlert(r.riverName, PhLevel, r.ph, 5.5, Critical)
  {
    if !IsCritical(r) then None
    else if r.turbidity > 100.0 then Some(CurrentAlert(r.riverName, Turbidity, r.turbidity, 100.0, Critical))
    else if r.ph < 5.5 then Some(CurrentAlert(r.riverName, PhLevel, r.ph, 5.5, Critical))
    else None
  }

  /** A row that triggers a current alert. */
  predicate Alerting(r: Reading)
  {
    AlertFor(r).Some?
  }

  /** The current alerts of a round of readings, in row order: one per alerting row, so
      never more than its Critical rows. */
  function CurrentAlerts(rows: seq<Reading>): (alerts: seq<CurrentAlert>)
    ensures |alerts| == Count(rows, Alerting)
    ensures |alerts| <= CriticalCount(rows)
  {
    if |rows| == 0 then []
    else
      var last := rows[|rows| - 1];
      var init := CurrentAlerts(rows[..|rows| - 1]);
      init + (if AlertFor(last).Some? then [AlertFor(last).value] else [])
  }

  /** `"CRITICAL" in risk_level or "HIGH" in risk_level`. */
  predicate HighRisk(p: AlertPrediction)
  {
    Contains(p.riskLevel, "CRITICAL") || Contains(p.riskLevel, "HIGH")
  }

  /** The high-risk predictions, in order. */
  function HighRiskPredictions(ps: seq<AlertPrediction>): (hs: seq<AlertPrediction>)
    ensures |hs| == Count(ps, HighRisk)
    ensures forall k | 0 <= k < |hs| :: HighRisk(hs[k]) && hs[k] in ps
  {
    if |ps| == 0 then []
    else
      var init := HighRiskPredictions(ps[..|ps| - 1]);
      assert forall k | 0 <= k < |init| :: init[k] in ps by {
        forall k | 0 <= k < |init| ensures init[k] in ps {
          var j :| 0 <= j < |ps| - 1 && ps[..|ps| - 1][j] == init[k];
          assert ps[j] == init[k];
        }
      }
      init + (if HighRisk(ps[|ps| - 1]) then [ps[|ps| - 1]] else [])
  }

  /** A prediction labelled by the engine is alerted on exactly when its tier is High or
      Critical. */
  lemma EngineLabelHighRisk(riverName: string, l: PredictionEngine.RiskLevel, score: real)
    ensures HighRisk(AlertPrediction(riverName, PredictionEngine.RiskLabel(l), score))
      <==> l == PredictionEngine.High || l == PredictionEngine.Critical
  {
    PredictionEngine.RiskLabelWords(l);
  }

  /** The predictions used: the given ones, or the session's when none are given. */
  function EffectivePredictions(predictions: Option<seq<AlertPrediction>>, session: Option<seq<AlertPrediction>>)
    : (ps: Option<seq<AlertPrediction>>)
    ensures predictions.Some? ==> ps == predictions
    ensures predictions.None? ==> ps == session
  {
    if predictions.None? && session.Some? then session else predictions
  }

  /** The number of the first `n` prediction alerts that were delivered. */
  function DeliveredCount(n: nat, delivered: nat -> bool): (c: nat)
    ensures c <= n
    ensures (forall k | 0 <= k < n :: delivered(k)) ==> c == n
    ensures (forall k | 0 <= k < n :: !delivered(k)) ==> c == 0
  {
    if n == 0 then 0 else DeliveredCount(n - 1, delivered) + (if delivered(n - 1) then 1 else 0)
  }

  /** The high-risk predictions alerted on, none when no predictions are available. */
  function PredictionsToAlert(predictions: Option<seq<AlertPrediction>>, session: Option<seq<AlertPrediction>>)
    : seq<AlertPrediction>
  {
    var ps := EffectivePredictions(predictions, session);
    if ps.Some? then HighRiskPredictions(ps.value) else []
  }

  /** `check_and_alert`: one current alert per Critical row with turbidity above 100 or pH
      below 5.5, each counted whatever the transport says, then one prediction alert per
      high-risk prediction, counted only when delivered. */
  method CheckAndAlert(rows: seq<Reading>, predictions: Option<seq<AlertPrediction>>,
                       sessionPredictions: Option<seq<AlertPrediction>>, delivered: nat -> bool)
    returns (alertsSent: nat, currentAlerts: seq<CurrentAlert>, predictionAlerts: seq<AlertPrediction>)
    ensures currentAlerts == CurrentAlerts(rows)
    ensures predictionAlerts == PredictionsToAlert(predictions, sessionPredictions)
    ensures alertsSent == |currentAlerts| + DeliveredCount(|predictionAlerts|, delivered)
  {
    currentAlerts := SendCurrentAlerts(rows);
    alertsSent := |currentAlerts|;
    var ps := predictions;
    if ps.None? && sessionPredictions.Some? {
      ps := sessionPredictions;
    }
    predictionAlerts := [];
    if ps.Some? && |ps.value| > 0 {
      predictionAlerts := HighRiskPredictions(ps.value);
      var sent := SendPredictionAlerts(predictionAlerts, delivered);
      alertsSent := alertsSent + sent;
    }
  }

  /** The loop over the Critical rows, collecting the alert each one triggers. */
  method SendCurrentAlerts(rows: seq<Reading>) returns (currentAlerts: seq<CurrentAlert>)
    ensures currentAlerts == CurrentAlerts(rows)
  {
    currentAlerts := [];
    var i := 0;
    while i < |rows|
      invariant 0 <= i <= |rows|
      invariant currentAlerts == CurrentAlerts(rows[..i])
    {
      assert rows[..i + 1][..i] == rows[..i];
      var row := rows[i];
      if IsCritical(row) {
        if row.turbidity > 100.0 {
          currentAlerts := currentAlerts + [CurrentAlert(row.riverName, Turbidity, row.turbidity, 100.0, Critical)];
        } else if row.ph < 5.5 {
          currentAlerts := currentAlerts + [CurrentAlert(row.riverName, PhLevel, row.ph, 5.5, Critical)];
        }
      }
      i := i + 1;
    }
    assert rows[..i] == rows;
  }

  /** The loop over the high-risk predictions, counting the delivered alerts. */
  method SendPredictionAlerts(alerts: seq<AlertPrediction>, delivered: nat -> bool) returns (sent: nat)
    ensures sent == DeliveredCount(|alerts|, delivered)
  {
    sent := 0;
    var k := 0;
    while k < |alerts|
      invariant 0 <= k <= |alerts|
      invariant sent == DeliveredCount(k, delivered)
    {
      var success := delivered(k);
      if success {
        sent := sent + 1;
      }
      k := k + 1;
    }
  }

  /** The number of alerts sent never exceeds the Critical rows plus the high-risk
      predictions. */
  lemma AlertsSentBounded(rows: seq<Reading>, predictions: Option<seq<AlertPrediction>>,
                          sessionPredictions: Option<seq<AlertPrediction>>, delivered: nat -> bool)
    ensures |CurrentAlerts(rows)| + DeliveredCount(|PredictionsToAlert(predictions, sessionPredictions)|, delivered)
      <= CriticalCount(rows) + |PredictionsToAlert(predictions, sessionPredictions)|
  {
  }

  /** A row that is Critical only because its pH exceeds 8.5 sends no alert. */
  lemma HighPhOnlySendsNothing(r: Reading)
    requires r.turbidity <= 100.0 && 5.5 <= r.ph && r.ph > 8.5
    ensures IsCritical(r)
    ensures CurrentAlerts([r]) == []
  {
    assert [r][..0] == [];
  }

  /** Every current alert is about a Critical row of the round. */
  lemma {:induction false} CurrentAlertsAreCritical(rows: seq<Reading>, k: nat)
    requires k < |CurrentAlerts(rows)|
    ensures exists i | 0 <= i < |rows| :: IsCritical(rows[i]) && AlertFor(rows[i]) == Some(CurrentAlerts(rows)[k])
  {
    var init := rows[..|rows| - 1];
    if k < |CurrentAlerts(init)| {
      CurrentAlertsAreCritical(init, k);
      var i :| 0 <= i < |init| && IsCritical(init[i]) && AlertFor(init[i]) == Some(CurrentAlerts(init)[k]);
      assert rows[i] == init[i];
    } else {
      assert AlertFor(rows[|rows| - 1]) == Some(CurrentAlerts(rows)[k]);
    }
  }

  /** Conversely, the alert of every alerting row of the round is among the current
      alerts. */
  lemma {:induction false} CurrentAlertsComplete(rows: seq<Reading>, i: nat)
    requires i < |rows| && AlertFor(rows[i]).Some?
    ensures AlertFor(rows[i]).value in CurrentAlerts(rows)
  {
    var init := rows[..|rows| - 1];
    if i < |rows| - 1 {
      assert init[i] == rows[i];
      CurrentAlertsComplete(init, i);
    }
  }

  // ---------------------------------------------------------------------------
  // The sender
  // ---------------------------------------------------------------------------

  /** What a Telegram message reports, without its text. */
  datatype Message = CurrentIssue(riverName: string, parameter: string, value: real, threshold: real, status: Status)

  /** `send_current_alert`: the transport's verdict on the current-issue message. */
  function SendCurrentAlert(riverName: string, parameter: string, value: real, threshold: real, status: Status,
                            transport: Message -> bool): (ok: bool)
    ensures ok == transport(CurrentIssue(riverName, parameter, value, threshold, status))
  {
    transport(CurrentIssue(riverName, parameter, value, threshold, status))
  }

  /** The legacy `send_alert` sends the same message as `send_current_alert`, with the
      same result, for every transport. */
  function SendAlert(riverName: string, parameter: string, value: real, threshold: real, status: Status,
                     transport: Message -> bool): (ok: bool)
    ensures ok == SendCurrentAlert(riverName, parameter, value, threshold, status, transport)
  {
    SendCurrentAlert(riverName, parameter, value, threshold, status, transport)
  }
}
