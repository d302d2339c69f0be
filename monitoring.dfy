/**
 * Metrics and alerting (src/monitoring.py): MetricsCollector keeps running
 * counters of predictions, errors and latencies and summarises them;
 * AlertingService appends an alert whenever a summary's fraud rate is above
 * its threshold.
 *
 * The Prometheus counters, gauges and logging that mirror these updates,
 * the wall-clock timestamps and the "%.2f" formatting of the summary are
 * not part of this model: rates and averages are exact reals.
 */
module Monitoring {
  import opened Numbers

  const FraudKey: string := "fraud"
  const LegitimateKey: string := "legitimate"

  /** How many recent latencies the average is taken over. */
  const LatencyWindow: nat := 100

  /** How many of the most recent alerts get_alerts returns. */
  const AlertWindow: nat := 100

  const DefaultFraudRateThreshold: real := 5.0

  /** A defaultdict(int) read: 0 for an absent key. */
  function Count(counts: map<string, nat>, key: string): (n: nat)
    ensures key in counts ==> n == counts[key]
    ensures key !in counts ==> n == 0
  {
    if key in counts then counts[key] else 0
  }

  /** fraud / max(total, 1) * 100 */
  function DetectionRate(fraud: nat, total: nat): (rate: real)
    ensures total == 0 ==> rate == (fraud as real) * 100.0
    ensures total > 0 ==> rate * (total as real) == (fraud as real) * 100.0
    ensures fraud <= total ==> 0.0 <= rate <= 100.0
  {
    var rate := (fraud as real) / (Max(total, 1) as real) * 100.0;
    RateBounds(fraud, Max(total, 1), rate);
    rate
  }

  lemma RateBounds(fraud: nat, divisor: nat, rate: real)
    requires divisor > 0 && rate == (fraud as real) / (divisor as real) * 100.0
    ensures rate * (divisor as real) == (fraud as real) * 100.0
    ensures fraud <= divisor ==> 0.0 <= rate <= 100.0
  {
    var q := (fraud as real) / (divisor as real);
    assert q * (divisor as real) == fraud as real;
    if fraud <= divisor {
      assert 0.0 <= q <= 1.0 by {
        assert q * (divisor as real) <= divisor as real;
      }
    }
  }

  lemma EightOfTenIsEighty()
    ensures DetectionRate(8, 10) == 80.0
  {
  }

  /** sum(latencies[-100:]) / max(len(latencies[-100:]), 1) */
  function AverageLatency(latencies: seq<real>): (avg: real)
    ensures latencies == [] ==> avg == 0.0
    ensures latencies != [] ==> avg == Mean(Last(latencies, LatencyWindow))
  {
    var recent := Last(latencies, LatencyWindow);
    Sum(recent) / (Max(|recent|, 1) as real)
  }

  /**
   * Recording one more latency slides the window: below 100 samples it
   * grows, from 100 on the oldest sample leaves as the new one enters.
   */
  lemma {:induction false} LatencyWindowSlides(latencies: seq<real>, x: real)
    ensures |latencies| < LatencyWindow ==> Last(latencies + [x], LatencyWindow) == latencies + [x]
    ensures |latencies| >= LatencyWindow ==>
      Last(latencies + [x], LatencyWindow) == Last(latencies, LatencyWindow)[1..] + [x]
  {
    if |latencies| >= LatencyWindow {
      var n := |latencies|;
      assert (latencies + [x])[n + 1 - LatencyWindow..] == latencies[n - LatencyWindow..][1..] + [x];
    }
  }

  /** The average lies between the smallest and the largest of the last 100 samples. */
  lemma AverageLatencyWithin(latencies: seq<real>, lo: real, hi: real)
    requires latencies != [] && Within(Last(latencies, LatencyWindow), lo, hi)
    ensures lo <= AverageLatency(latencies) <= hi
  {
    MeanWithin(Last(latencies, LatencyWindow), lo, hi);
  }

  /** Samples older than the last 100 do not affect the average. */
  lemma AverageIgnoresOldSamples(older: seq<real>, recent: seq<real>)
    requires |recent| == LatencyWindow
    ensures AverageLatency(older + recent) == AverageLatency(recent)
  {
    assert Last(older + recent, LatencyWindow) == recent;
  }

  /** The dict get_metrics returns, without its timestamp. */
  datatype Metrics = Metrics(
    totalPredictions: nat,
    fraudDetections: nat,
    fraudDetectionRate: real,
    legitimatePredictions: nat,
    averageLatencyMs: real,
    totalErrors: nat)

  class MetricsCollector {
    var predictions: map<string, nat>
    var fraudDetections: nat
    var totalPredictions: nat
    var latencies: seq<real>
    var errorCount: nat

    /** The counters agree: the fraud count is the 'fraud' entry, and the total is fraud plus legitimate. */
    ghost predicate Valid()
      reads this
    {
      && fraudDetections == Count(predictions, FraudKey)
      && totalPredictions == Count(predictions, FraudKey) + Count(predictions, LegitimateKey)
    }

    constructor ()
      ensures Valid()
      ensures predictions == map[] && fraudDetections == 0 && totalPredictions == 0
      ensures latencies == [] && errorCount == 0
    {
      predictions := map[];
      fraudDetections := 0;
      totalPredictions := 0;
      latencies := [];
      errorCount := 0;
    }

    /** Any is_fraud other than 1 counts as legitimate. */
    method RecordPrediction(isFraud: int, probability: real)
      requires Valid()
      modifies this`predictions, this`fraudDetections, this`totalPredictions
      ensures Valid()
      ensures totalPredictions == old(totalPredictions) + 1
      ensures isFraud == 1 ==>
                fraudDetections == old(fraudDetections) + 1
                && Count(predictions, LegitimateKey) == old(Count(predictions, LegitimateKey))
      ensures isFraud != 1 ==>
                fraudDetections == old(fraudDetections)
                && Count(predictions, LegitimateKey) == old(Count(predictions, LegitimateKey)) + 1
    {
      totalPredictions := totalPredictions + 1;
      var predType := if isFraud == 1 then FraudKey else LegitimateKey;
      predictions := predictions[predType := Count(predictions, predType) + 1];
      if isFraud == 1 {
        fraudDetections := fraudDetections + 1;
      }
    }

    method RecordLatency(latencyMs: real)
      modifies this`latencies
      ensures latencies == old(latencies) + [latencyMs]
    {
      latencies := latencies + [latencyMs];
    }

    method RecordError()
      modifies this`errorCount
      ensures errorCount == old(errorCount) + 1
    {
      errorCount := errorCount + 1;
    }

    function GetMetrics(): (m: Metrics)
      reads this
      ensures m.totalPredictions == totalPredictions && m.fraudDetections == fraudDetections
      ensures m.totalErrors == errorCount
      ensures m.averageLatencyMs == AverageLatency(latencies)
      ensures totalPredictions == 0 ==> m.fraudDetectionRate == (fraudDetections as real) * 100.0
      ensures Valid() ==> m.totalPredictions == m.fraudDetections + m.legitimatePredictions
      ensures Valid() ==> 0.0 <= m.fraudDetectionRate <= 100.0
      ensures Valid() && totalPredictions == 0 ==> m.fraudDetectionRate == 0.0
      ensures m.fraudDetectionRate == DetectionRate(fraudDetections, totalPredictions)
      ensures m.legitimatePredictions == Count(predictions, LegitimateKey)
    {
      Metrics(totalPredictions, fraudDetections, DetectionRate(fraudDetections, totalPredictions),
              Count(predictions, LegitimateKey), AverageLatency(latencies), errorCount)
    }
  }

  datatype AlertKind = HighFraudRate

  /** An alert, without its timestamp. */
  datatype Alert = Alert(kind: AlertKind, value: real, threshold: real)

  class AlertingService {
    var fraudRateThreshold: real
    var alerts: seq<Alert>

    constructor (fraudRateThreshold: real := DefaultFraudRateThreshold)
      ensures this.fraudRateThreshold == fraudRateThreshold && alerts == []
    {
      this.fraudRateThreshold := fraudRateThreshold;
      alerts := [];
    }

    /** An alert is appended, and true returned, exactly when the rate is strictly above the threshold. */
    method CheckFraudRate(metrics: Metrics) returns (raised: bool)
      modifies this`alerts
      ensures raised <==> metrics.fraudDetectionRate > fraudRateThreshold
      ensures alerts == old(alerts) + if raised then [Alert(HighFraudRate, metrics.fraudDetectionRate, fraudRateThreshold)] else []
    {
      var fraudRate := metrics.fraudDetectionRate;
      if fraudRate > fraudRateThreshold {
        alerts := alerts + [Alert(HighFraudRate, fraudRate, fraudRateThreshold)];
        return true;
      }
      return false;
    }

    /** The last min(100, len) alerts, oldest first; the log itself is never trimmed. */
    function GetAlerts(): (r: seq<Alert>)
      reads this
      ensures |r| == Min(AlertWindow, |alerts|)
      ensures forall i :: 0 <= i < |r| ==> r[i] == alerts[|alerts| - |r| + i]
    {
      Last(alerts, AlertWindow)
    }
  }

  /** Eight fraud and two legitimate predictions give a detection rate of 80%. */
  method EightOfTenScenario() returns (m: Metrics)
    ensures m.totalPredictions == 10 && m.fraudDetections == 8
    ensures m.fraudDetectionRate == 80.0 && m.legitimatePredictions == 2
  {
    var collector := new MetricsCollector();
    for i := 0 to 8
      invariant collector.Valid() && collector.totalPredictions == i && collector.fraudDetections == i
    {
      collector.RecordPrediction(1, 0.9);
    }
    collector.RecordPrediction(0, 0.1);
    collector.RecordPrediction(0, 0.2);
    m := collector.GetMetrics();
  }

  /** The same summary checked twice raises two alerts: there is no deduplication. */
  method RepeatedAlertsAreKept() returns (first: bool, second: bool, atThreshold: bool, alerts: seq<Alert>)
    ensures first && second && !atThreshold
    ensures |alerts| == 2 && alerts[0] == alerts[1]
  {
    var service := new AlertingService();
    var m := Metrics(100, 6, 6.0, 94, 0.0, 0);
    first := service.CheckFraudRate(m);
    second := service.CheckFraudRate(m);
    atThreshold := service.CheckFraudRate(m.(fraudDetectionRate := 5.0));
    alerts := service.alerts;
  }
}
