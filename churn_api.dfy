/** The prediction service: the API-key gate, the thresholds that turn the model's
    churn probability into a decision and a risk tier, the model-loaded guards of
    `/health` and `/predict`, and the drift summary of `/drift/check`. */
module ChurnApi {
  import opened Js
  import opened Client

  /** The key used when the `API_KEY` environment variable is unset. */
  const DefaultApiKey: string := "mlops_secret_key_2026"

  /** The service's answer: a body, or an `HTTPException` with its status and detail. */
  datatype Response<T> = Success(body: T) | HttpException(status: int, detail: string)

  datatype Risk = Low | Medium | High {
    function Name(): string {
      match this
      case Low => "Low"
      case Medium => "Medium"
      case High => "High"
    }
  }

  /** The body that `predict_cached` builds from one probability. */
  datatype PredictionBody = PredictionBody(churnProbability: real, prediction: int, riskLevel: Risk)

  /** `int(proba > 0.5)`. */
  function Decision(proba: real): (p: int)
    ensures p == 0 || p == 1
    ensures p == 1 <==> proba > 0.5
  {
    if proba > 0.5 then 1 else 0
  }

  /** `"Low" if proba < 0.3 else "Medium" if proba < 0.7 else "High"`. */
  function Tier(proba: real): (r: Risk)
    ensures r == Low <==> proba < 0.3
    ensures r == Medium <==> 0.3 <= proba < 0.7
    ensures r == High <==> proba >= 0.7
  {
    if proba < 0.3 then Low else if proba < 0.7 then Medium else High
  }

  /** The thresholding step of `predict_cached`: decision and tier agree at the
      extremes, and the tier's boundaries sit on either side of the decision's. */
  function PredictCached(proba: real): (r: PredictionBody)
    ensures r.churnProbability == proba
    ensures r.prediction == 1 <==> proba > 0.5
    ensures r.prediction == 0 <==> proba <= 0.5
    ensures r.riskLevel == Low ==> r.prediction == 0
    ensures r.riskLevel == High ==> r.prediction == 1
    ensures r.riskLevel == Medium <==> 0.3 <= proba < 0.7
  {
    PredictionBody(proba, Decision(proba), Tier(proba))
  }

  /** The client-facing view of an answer of `/predict`. */
  function AsResponse(b: PredictionBody): (r: PredictionResponse)
    ensures r.riskLevel in {"Low", "Medium", "High"}
    ensures r.churnProbability == b.churnProbability && r.prediction == b.prediction
  {
    PredictionResponse(b.churnProbability, b.prediction, b.riskLevel.Name())
  }

  /** The client sees "High" exactly for the answers the service tiers High, so the
      batch tab's high-risk count is the number of probabilities at or above 0.7. */
  lemma HighLabelIsHighTier(proba: real)
    ensures AsResponse(PredictCached(proba)).riskLevel == "High" <==> proba >= 0.7
    ensures AsResponse(PredictCached(proba)).prediction == 1 <==> proba > 0.5
  {
  }

  /** `get_api_key` behind `APIKeyHeader(auto_error=True)`: a missing or empty header
      is refused by the header scheme itself (403 "Not authenticated" in FastAPI
      releases before 0.122.0), any other value must equal the key. */
  function GetApiKey(header: Option<string>, apiKey: string): (r: Response<string>)
    ensures r.Success? <==> header == Some(apiKey) && apiKey != ""
    ensures r.Success? ==> r.body == apiKey
    ensures r.HttpException? ==> r.status == 403
  {
    if header.None? || header.value == "" then HttpException(403, "Not authenticated")
    else if header.value == apiKey then Success(header.value)
    else HttpException(403, "Clé API invalide ou manquante")
  }

  /** What scoring one record does: the model's churn probability, or the message
      of the exception it raised. */
  datatype Scoring = Probability(p: real) | Raised(message: string)

  /** A loaded model, reduced to the probability it gives a feature record. */
  datatype Model = Model(predictProba: CustomerFeatures -> Scoring)

  /** Whether `detect_drift` produced per-feature results (feature name to its
      `drift_detected` flag) or raised. */
  datatype Detection = Detected(results: map<string, bool>) | DetectionFailed

  /** The features whose `drift_detected` flag is set. */
  function Drifted(results: map<string, bool>): (d: set<string>)
    ensures d <= results.Keys
    ensures forall f :: f in d <==> f in results && results[f]
    ensures |d| <= |results|
  {
    var d := set f | f in results && results[f];
    SubsetCardinality(d, results.Keys);
    d
  }

  lemma {:induction false} SubsetCardinality(a: set<string>, b: set<string>)
    requires a <= b
    ensures |a| <= |b|
  {
    if a != {} {
      var x :| x in a;
      SubsetCardinality(a - {x}, b - {x});
    }
  }

  /** `len(drifted) / len(results) * 100`; defined only for a non-empty result set. */
  function DriftPercentage(drifted: nat, analyzed: nat): (pct: real)
    requires analyzed > 0
    ensures pct * analyzed as real == drifted as real * 100.0
    ensures drifted <= analyzed ==> 0.0 <= pct <= 100.0
  {
    drifted as real / analyzed as real * 100.0
  }

  /** The logged risk level: `"HIGH" if pct > 50 else "MEDIUM" if pct > 20 else "LOW"`. */
  function DriftRiskLevel(pct: real): (level: string)
    ensures level == "HIGH" <==> pct > 50.0
    ensures level == "MEDIUM" <==> 20.0 < pct <= 50.0
    ensures level == "LOW" <==> pct <= 20.0
  {
    if pct > 50.0 then "HIGH" else if pct > 20.0 then "MEDIUM" else "LOW"
  }

  /** The custom dimensions that `check_drift` logs. */
  datatype DriftLog = DriftLog(featuresAnalyzed: nat, featuresDrifted: nat, driftPercentage: real, riskLevel: string)

  /** The service's module state: the configured key and the global `model`. */
  class Server {
    const apiKey: string
    var model: Option<Model>

    /** Module import: the key is read from `API_KEY` (or defaults), no model is
        loaded yet. */
    constructor (env: Option<string>)
      ensures apiKey == if env.Some? then env.value else DefaultApiKey
      ensures model == None
    {
      apiKey := if env.Some? then env.value else DefaultApiKey;
      model := None;
    }

    /** `load_model` at start-up: `loaded` is what `joblib.load` gave, or `None`
        when it raised. */
    method LoadModel(loaded: Option<Model>)
      modifies this
      ensures model == loaded
    {
      model := loaded;
    }

    /** `GET /health`. */
    method Health(header: Option<string>) returns (r: Response<HealthBody>)
      ensures r.Success? <==> GetApiKey(header, apiKey).Success? && model.Some?
      ensures r.Success? ==> r.body == HealthBody("healthy", true)
      ensures GetApiKey(header, apiKey).HttpException? ==> r.HttpException? && r.status == 403
      ensures GetApiKey(header, apiKey).Success? && model.None? ==> r == HttpException(503, "Modèle non chargé")
    {
      var auth := GetApiKey(header, apiKey);
      if auth.HttpException? {
        return HttpException(auth.status, auth.detail);
      }
      if model.None? {
        return HttpException(503, "Modèle non chargé");
      }
      return Success(HealthBody("healthy", true));
    }

    /** `POST /predict`: the key first, then the model guard, then scoring; an
        exception while scoring becomes a 500 carrying its message. */
    method Predict(header: Option<string>, features: CustomerFeatures) returns (r: Response<PredictionBody>)
      ensures GetApiKey(header, apiKey).HttpException? ==> r.HttpException? && r.status == 403
      ensures GetApiKey(header, apiKey).Success? && model.None? ==> r == HttpException(503, "Modèle indisponible")
      ensures r.Success? <==> GetApiKey(header, apiKey).Success? && model.Some? && model.value.predictProba(features).Probability?
      ensures r.Success? ==> r.body == PredictCached(model.value.predictProba(features).p)
      ensures GetApiKey(header, apiKey).Success? && model.Some? && model.value.predictProba(features).Raised? ==>
                r == HttpException(500, model.value.predictProba(features).message)
    {
      var auth := GetApiKey(header, apiKey);
      if auth.HttpException? {
        return HttpException(auth.status, auth.detail);
      }
      if model.None? {
        return HttpException(503, "Modèle indisponible");
      }
      match model.value.predictProba(features)
      case Probability(p) =>
        r := Success(PredictCached(p));
      case Raised(message) =>
        r := HttpException(500, message);
    }

    /** `POST /drift/check`: counts the drifted features and logs the drift level;
        a failing detection and an empty result set (the division by zero) both
        surface as a 500. */
    method CheckDrift(header: Option<string>, detection: Detection) returns (r: Response<DriftBody>, logged: Option<DriftLog>)
      ensures GetApiKey(header, apiKey).HttpException? ==> r.HttpException? && r.status == 403 && logged == None
      ensures r.Success? <==> GetApiKey(header, apiKey).Success? && detection.Detected? && |detection.results| > 0
      ensures r.Success? ==> r.body == DriftBody("success", |detection.results|, |Drifted(detection.results)|)
      ensures r.Success? ==> r.body.featuresDrifted <= r.body.featuresAnalyzed
      ensures GetApiKey(header, apiKey).Success? && !r.Success? ==> r == HttpException(500, "Erreur drift detection")
      ensures logged.Some? <==> r.Success?
      ensures r.Success? ==> logged.value.riskLevel == DriftRiskLevel(DriftPercentage(r.body.featuresDrifted, r.body.featuresAnalyzed))
    {
      logged := None;
      var auth := GetApiKey(header, apiKey);
      if auth.HttpException? {
        return HttpException(auth.status, auth.detail), None;
      }
      if detection.DetectionFailed? || |detection.results| == 0 {
        return HttpException(500, "Erreur drift detection"), None;
      }
      var analyzed := |detection.results|;
      var drifted := |Drifted(detection.results)|;
      var pct := DriftPercentage(drifted, analyzed);
      logged := Some(DriftLog(analyzed, drifted, pct, DriftRiskLevel(pct)));
      r := Success(DriftBody("success", analyzed, drifted));
    }
  }
}
