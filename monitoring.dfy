/** The monitoring tab: the two checks (`/health`, `/drift/check`) with their
    loading and error state, and the drift level the tab derives from a drift answer. */
module Monitoring {
  import opened Js
  import opened Client
  import ChurnApi

  datatype DriftLevel = HIGH | MEDIUM | LOW {
    function Name(): string {
      match this
      case HIGH => "HIGH"
      case MEDIUM => "MEDIUM"
      case LOW => "LOW"
    }
  }

  /** `(features_drifted / features_analyzed) * 100` evaluated in JavaScript. */
  function DriftPercentage(drifted: nat, analyzed: nat): (pct: Number)
    ensures analyzed > 0 ==> pct.Finite? && pct.value * analyzed as real == drifted as real * 100.0
    ensures analyzed == 0 && drifted > 0 ==> pct == Infinity(false)
    ensures analyzed == 0 && drifted == 0 ==> pct == NaN
  {
    Scale(Divide(drifted as real, analyzed as real), 100.0)
  }

  /** `driftPct > 50 ? "HIGH" : driftPct > 20 ? "MEDIUM" : "LOW"`. */
  function Level(pct: Number): (l: DriftLevel)
    ensures l == HIGH <==> Greater(pct, 50.0)
    ensures l == MEDIUM <==> Greater(pct, 20.0) && !Greater(pct, 50.0)
    ensures l == LOW <==> !Greater(pct, 20.0)
    ensures pct == NaN ==> l == LOW
  {
    if Greater(pct, 50.0) then HIGH else if Greater(pct, 20.0) then MEDIUM else LOW
  }

  /** The tab's level agrees with the level the service logs for the same counts. */
  lemma SameLevelAsServer(drifted: nat, analyzed: nat)
    requires analyzed > 0
    ensures Level(DriftPercentage(drifted, analyzed)).Name() ==
            ChurnApi.DriftRiskLevel(ChurnApi.DriftPercentage(drifted, analyzed))
  {
  }

  /** No drifted feature always reads as LOW, even for an empty analysis (`0 / 0` is NaN). */
  lemma NoDriftIsLow(analyzed: nat)
    ensures Level(DriftPercentage(0, analyzed)) == LOW
  {
  }

  /** A drifted count over an empty analysis divides by zero and reads as HIGH. */
  lemma DriftOverNothingIsHigh(drifted: nat)
    requires drifted > 0
    ensures Level(DriftPercentage(drifted, 0)) == HIGH
  {
  }

  /** More than half of the analysed features drifting reads as HIGH. */
  lemma {:induction false} MajorityDriftIsHigh(drifted: nat, analyzed: nat)
    requires 0 < analyzed < 2 * drifted
    ensures Level(DriftPercentage(drifted, analyzed)) == HIGH
  {
    var pct := DriftPercentage(drifted, analyzed);
    PercentAbove(pct.value, drifted as real, analyzed as real);
  }

  /** At most a fifth of the analysed features drifting reads as LOW. */
  lemma {:induction false} MinorDriftIsLow(drifted: nat, analyzed: nat)
    requires 0 < analyzed && 5 * drifted <= analyzed
    ensures Level(DriftPercentage(drifted, analyzed)) == LOW
  {
    var pct := DriftPercentage(drifted, analyzed);
    PercentAtMost(pct.value, drifted as real, analyzed as real);
  }

  /** A percentage of more than half of the whole is above 50. */
  lemma PercentAbove(x: real, d: real, a: real)
    requires a > 0.0 && x * a == d * 100.0 && a < 2.0 * d
    ensures x > 50.0
  {
    assert x * a > 50.0 * a;
    CancelPositive(x, 50.0, a);
  }

  /** A percentage of at most a fifth of the whole is at most 20. */
  lemma PercentAtMost(x: real, d: real, a: real)
    requires a > 0.0 && x * a == d * 100.0 && 5.0 * d <= a
    ensures x <= 20.0
  {
    assert x * a <= 20.0 * a;
    CancelPositive(x, 20.0, a);
  }

  lemma CancelPositive(x: real, c: real, a: real)
    requires a > 0.0
    ensures x * a > c * a ==> x > c
    ensures x * a <= c * a ==> x <= c
  {
  }

  datatype Icon = AlertCircle | CheckCircle

  /** `level === "HIGH" ? <AlertCircle/> : <CheckCircle/>`. */
  function IconFor(level: DriftLevel): (i: Icon)
    ensures i == AlertCircle <==> level == HIGH
    ensures i == CheckCircle <==> level != HIGH
  {
    if level == HIGH then AlertCircle else CheckCircle
  }

  const HealthFallback: string := "Error checking health"
  const DriftFallback: string := "Error checking drift"

  /** The tab's component state. */
  class MonitoringTab {
    var healthLoading: bool
    var driftLoading: bool
    var healthData: Option<HealthBody>
    var driftData: Option<DriftBody>
    var error: Option<string>
    var threshold: Number

    constructor ()
      ensures !healthLoading && !driftLoading
      ensures healthData == None && driftData == None && error == None
      ensures threshold == Finite(0.05)
    {
      healthLoading, driftLoading := false, false;
      healthData, driftData := None, None;
      error := None;
      threshold := Finite(0.05);
    }

    /** The slider's `onChange`: `parseFloat` of the slider's text. */
    method SetThreshold(parsed: Number)
      modifies this
      ensures threshold == parsed
      ensures healthLoading == old(healthLoading) && driftLoading == old(driftLoading)
      ensures healthData == old(healthData) && driftData == old(driftData) && error == old(error)
    {
      threshold := parsed;
    }

    /** `handleCheckHealth` up to its `await`: loading on, error cleared. */
    method BeginCheckHealth()
      modifies this
      ensures healthLoading && error == None
      ensures driftLoading == old(driftLoading) && threshold == old(threshold)
      ensures healthData == old(healthData) && driftData == old(driftData)
    {
      healthLoading := true;
      error := None;
    }

    /** `handleCheckHealth` after its request settles: the answer is stored, or the
        error text is set and the previous answer stays; loading is off either way. */
    method FinishCheckHealth(outcome: Outcome<HealthBody>)
      modifies this
      ensures !healthLoading
      ensures outcome.Ok? ==> healthData == Some(outcome.value) && error == old(error)
      ensures outcome.Fail? ==> healthData == old(healthData) && error == Some(ErrorText(outcome.error, HealthFallback))
      ensures driftLoading == old(driftLoading) && driftData == old(driftData) && threshold == old(threshold)
    {
      match outcome {
        case Ok(data) =>
          healthData := Some(data);
        case Fail(e) =>
          error := Some(ErrorText(e, HealthFallback));
      }
      healthLoading := false;
    }

    /** `handleCheckDrift` up to its `await`: loading on, error cleared; returns the
        threshold sent with the request. */
    method BeginCheckDrift() returns (sent: Number)
      modifies this
      ensures sent == threshold
      ensures driftLoading && error == None
      ensures healthLoading == old(healthLoading) && threshold == old(threshold)
      ensures healthData == old(healthData) && driftData == old(driftData)
    {
      driftLoading := true;
      error := None;
      sent := threshold;
    }

    /** `handleCheckDrift` after its request settles. */
    method FinishCheckDrift(outcome: Outcome<DriftBody>)
      modifies this
      ensures !driftLoading
      ensures outcome.Ok? ==> driftData == Some(outcome.value) && error == old(error)
      ensures outcome.Fail? ==> driftData == old(driftData) && error == Some(ErrorText(outcome.error, DriftFallback))
      ensures healthLoading == old(healthLoading) && healthData == old(healthData) && threshold == old(threshold)
    {
      match outcome {
        case Ok(data) =>
          driftData := Some(data);
        case Fail(e) =>
          error := Some(ErrorText(e, DriftFallback));
      }
      driftLoading := false;
    }
  }
}
