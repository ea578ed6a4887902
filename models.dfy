/**
 * The four predictors of the pipeline. The fitted estimators, the scalers
 * and the label encoder are foreign: their raw outputs (a predicted class
 * and a probability vector, a decision score, a regression value) enter
 * each `Predict` as parameters, and what is modelled is what `predict`
 * does with them, together with the `is_trained` guard that `train` sets.
 */
module Models {
  import opened Wrappers
  import opened Numerics
  import opened Telemetry

  datatype PredictError =
    | NotTrained                           // RuntimeError raised before training
    | MissingFeatures(fields: seq<Field>)  // KeyError when selecting the feature columns
    | UnknownClass(index: int)             // KeyError / ValueError on a class index without a label
    | EmptyProbabilities                   // ValueError from max() of an empty sequence
    | NonFiniteFeatures                    // ValueError from the scaler on an infinite or NaN ratio
    | NoHealthyRows                        // ValueError from fitting the scaler on no rows

  /** What a fitted classifier returns for one row: `predict(...)[0]` and `predict_proba(...)[0]`. */
  datatype ClassifierOutput = ClassifierOutput(prediction: int, probabilities: seq<real>)

  /** What the fitted isolation forest returns for one row: `predict(...)[0]` (-1 outlier, 1 inlier) and `decision_function(...)[0]`. */
  datatype DetectorOutput = DetectorOutput(prediction: int, decisionScore: real)

  // ---------------------------------------------------------------- features

  /** The fields of `features` that `r` lacks, in feature order. */
  function MissingFields(r: Reading, features: seq<Field>): (missing: seq<Field>)
    ensures forall f :: f in missing <==> f in features && f !in r
    ensures |missing| <= |features|
  {
    if |features| == 0 then []
    else
      var rest := MissingFields(r, features[1..]);
      if features[0] in r then rest else [features[0]] + rest
  }

  /** `[reading_dict.get(f, 0) for f in features]`: a missing field reads as 0. */
  function FeatureVector(r: Reading, features: seq<Field>): (v: seq<real>)
    ensures |v| == |features|
    ensures forall i :: 0 <= i < |features| ==> v[i] == GetOr(r, features[i], 0.0)
  {
    seq(|features|, i requires 0 <= i < |features| => GetOr(r, features[i], 0.0))
  }

  /** Floating division as pandas does it: a zero denominator yields inf or nan, shown here as `None`. */
  function FloatDiv(num: real, den: real): (q: Option<real>)
    ensures q.None? <==> den == 0.0
    ensures q.Some? ==> q.value * den == num
  {
    if den == 0.0 then None else Some(num / den)
  }

  const NormalMeanTemp: real := 38.85

  /** The health classifier's input row: its sixteen columns plus six engineered ones. */
  datatype EngineeredFeatures = EngineeredFeatures(
    base: seq<real>,
    tempDeviation: real,
    activityRuminationRatio: Option<real>,
    feedWaterRatio: Option<real>,
    cardioStress: real,
    mobilityScore: real,
    restActivityRatio: Option<real>)

  /** `HealthPredictor._engineer_features` on one reading. */
  function EngineerFeatures(r: Reading): (x: Result<EngineeredFeatures, PredictError>)
    ensures x.Failure? <==> !Complete(r)
    ensures x.Failure? ==> x.error == MissingFeatures(MissingFields(r, AllFeatures)) && |x.error.fields| > 0
    ensures x.Success? ==>
      && |x.value.base| == |AllFeatures|
      && (forall i :: 0 <= i < |AllFeatures| ==> x.value.base[i] == r[AllFeatures[i]])
      && x.value.tempDeviation == r[BodyTemp] - NormalMeanTemp
      && x.value.activityRuminationRatio == FloatDiv(r[ActivityLevel], r[RuminationMin] + 1.0)
      && x.value.feedWaterRatio == FloatDiv(r[FeedIntake], r[WaterIntake] + 1.0)
      && x.value.cardioStress * 1000.0 == r[HeartRate] * r[RespiratoryRate]
      && x.value.mobilityScore * 10000.0 == r[ActivityLevel] * r[StepsCount]
      && x.value.restActivityRatio == FloatDiv(r[LyingTime], r[ActivityLevel] + 1.0)
  {
    var missing := MissingFields(r, AllFeatures);
    if |missing| > 0 then
      assert missing[0] in missing;
      Failure(MissingFeatures(missing))
    else
      assert Complete(r) by {
        forall f: Field ensures f in r {
          EveryFieldIsAFeature(f);
        }
      }
      Success(EngineeredFeatures(
        FeatureVector(r, AllFeatures),
        r[BodyTemp] - NormalMeanTemp,
        FloatDiv(r[ActivityLevel], r[RuminationMin] + 1.0),
        FloatDiv(r[FeedIntake], r[WaterIntake] + 1.0),
        r[HeartRate] * r[RespiratoryRate] / 1000.0,
        r[ActivityLevel] * r[StepsCount] / 10000.0,
        FloatDiv(r[LyingTime], r[ActivityLevel] + 1.0)))
  }

  /** With non-negative readings none of the three ratios divides by zero, and every engineered value except the temperature deviation is non-negative. */
  lemma EngineeredRatiosFinite(r: Reading)
    requires Complete(r)
    requires forall f :: f in r ==> r[f] >= 0.0
    ensures EngineerFeatures(r).Success?
    ensures var x := EngineerFeatures(r).value;
      && x.activityRuminationRatio.Some? && x.activityRuminationRatio.value >= 0.0
      && x.feedWaterRatio.Some? && x.feedWaterRatio.value >= 0.0
      && x.restActivityRatio.Some? && x.restActivityRatio.value >= 0.0
      && x.cardioStress >= 0.0 && x.mobilityScore >= 0.0
  {
    var x := EngineerFeatures(r).value;
    assert r[HeartRate] * r[RespiratoryRate] >= 0.0;
    assert r[ActivityLevel] * r[StepsCount] >= 0.0;
  }

  /** None of the three engineered ratios divides by zero, so the scaler accepts the row. */
  predicate RatiosFinite(x: EngineeredFeatures)
  {
    x.activityRuminationRatio.Some? && x.feedWaterRatio.Some? && x.restActivityRatio.Some?
  }

  /** A ratio's divisor is a reading plus one, so exactly a reading of -1 makes it infinite or NaN. */
  lemma RatiosFiniteUnlessMinusOne(r: Reading)
    requires Complete(r)
    ensures EngineerFeatures(r).Success?
    ensures RatiosFinite(EngineerFeatures(r).value) <==>
      r[RuminationMin] != -1.0 && r[WaterIntake] != -1.0 && r[ActivityLevel] != -1.0
  {
  }

  // ------------------------------------------------------- health classifier

  /** `HEALTH_LABELS`: 0 Healthy, 1 At-Risk, 2 Critical; other keys are absent. */
  function HealthLabel(status: int): (name: Option<string>)
    ensures name.Some? <==> 0 <= status <= 2
  {
    match status
    case 0 => Some("Healthy")
    case 1 => Some("At-Risk")
    case 2 => Some("Critical")
    case _ => None
  }

  /** The values of `HEALTH_LABELS` in key order. */
  const HealthNames: seq<string> := ["Healthy", "At-Risk", "Critical"]

  lemma HealthNamesMatchLabels(i: int)
    requires 0 <= i < 3
    ensures HealthLabel(i) == Some(HealthNames[i])
    ensures forall j :: i < j < 3 ==> HealthNames[j] != HealthNames[i]
  {
  }

  datatype HealthPrediction = HealthPrediction(
    status: int,
    statusLabel: string,
    confidence: real,
    probabilities: map<string, real>)

  class HealthPredictor {
    var isTrained: bool

    constructor()
      ensures !isTrained
    {
      isTrained := false;
    }

    /** Fitting is foreign; what survives of `train` is that prediction becomes possible. */
    method Train()
      modifies this
      ensures isTrained
    {
      isTrained := true;
    }

    /** `HealthPredictor.predict` given the forest's raw output for the reading. */
    method Predict(reading: Reading, raw: ClassifierOutput) returns (r: Result<HealthPrediction, PredictError>)
      ensures !isTrained ==> r == Failure(NotTrained)
      ensures r.Success? <==>
        && isTrained
        && Complete(reading)
        && reading[RuminationMin] != -1.0 && reading[WaterIntake] != -1.0 && reading[ActivityLevel] != -1.0
        && 0 <= raw.prediction <= 2
        && 0 < |raw.probabilities| <= 3
      ensures r.Success? ==>
        && r.value.status == raw.prediction
        && Some(r.value.statusLabel) == HealthLabel(r.value.status)
        && r.value.confidence in raw.probabilities
        && (forall i :: 0 <= i < |raw.probabilities| ==> raw.probabilities[i] <= r.value.confidence)
        && r.value.probabilities == ProbabilityMap(HealthNames, raw.probabilities)
        && (forall i :: 0 <= i < |raw.probabilities| ==>
              && HealthLabel(i).value in r.value.probabilities
              && r.value.probabilities[HealthLabel(i).value] == raw.probabilities[i])
    {
      if !isTrained {
        return Failure(NotTrained);
      }
      var features := EngineerFeatures(reading);
      if features.Failure? {
        return Failure(features.error);
      }
      RatiosFiniteUnlessMinusOne(reading);
      if !RatiosFinite(features.value) {
        return Failure(NonFiniteFeatures);
      }
      var statusLabel := HealthLabel(raw.prediction);
      if statusLabel.None? {
        return Failure(UnknownClass(raw.prediction));
      }
      var ps := raw.probabilities;
      if |ps| == 0 {
        return Failure(EmptyProbabilities);
      }
      if |ps| > 3 {
        return Failure(UnknownClass(3));
      }
      var probabilities := ProbabilityMap(HealthNames, ps);
      forall i | 0 <= i < |ps|
        ensures HealthLabel(i).value in probabilities && probabilities[HealthLabel(i).value] == ps[i]
      {
        HealthNamesMatchLabels(i);
      }
      r := Success(HealthPrediction(raw.prediction, statusLabel.value, Max(ps), probabilities));
    }
  }

  // --------------------------------------------------------- anomaly detector

  datatype AnomalySeverity = SeverityLow | SeverityMedium | SeverityHigh {
    function Name(): string {
      match this
      case SeverityLow => "Low"
      case SeverityMedium => "Medium"
      case SeverityHigh => "High"
    }
    function Rank(): nat {
      match this
      case SeverityLow => 0
      case SeverityMedium => 1
      case SeverityHigh => 2
    }
  }

  datatype AnomalyResult = AnomalyResult(isAnomaly: bool, anomalyScore: real, severity: AnomalySeverity)

  /** Severity from the raw decision score (more negative is more anomalous). */
  function AnomalySeverityOf(score: real): AnomalySeverity
  {
    if score < -0.3 then SeverityHigh
    else if score < -0.1 then SeverityMedium
    else SeverityLow
  }

  /** Restated on the reported anomaly score (the negated decision score): High above 0.3, Medium in (0.1, 0.3], Low otherwise; a higher reported score never lowers the severity. */
  lemma AnomalySeverityByReportedScore(score: real, other: real)
    ensures var reported := -score;
      && (AnomalySeverityOf(score) == SeverityHigh <==> reported > 0.3)
      && (AnomalySeverityOf(score) == SeverityMedium <==> 0.1 < reported <= 0.3)
      && (AnomalySeverityOf(score) == SeverityLow <==> reported <= 0.1)
    ensures -other >= -score ==> AnomalySeverityOf(other).Rank() >= AnomalySeverityOf(score).Rank()
  {
  }

  /** `df[df['health_status'] == 0]`: the rows the detector is fitted on, in order. */
  function HealthyRows(rows: seq<LabeledReading>): (healthy: seq<LabeledReading>)
    ensures |healthy| <= |rows|
    ensures forall k :: 0 <= k < |healthy| ==> healthy[k].healthStatus == 0 && healthy[k] in rows
    ensures forall row :: row in rows && row.healthStatus == 0 ==> row in healthy
  {
    if |rows| == 0 then []
    else
      var rest := HealthyRows(rows[1..]);
      if rows[0].healthStatus == 0 then [rows[0]] + rest else rest
  }

  /** The hand-written evaluation in `AnomalyDetector.train`. */
  datatype DetectionMetrics = DetectionMetrics(
    precision: real, recall: real, f1: real, anomaliesDetected: nat, totalRecords: nat)

  /** Number of rows where the detection flag is `d` and the true anomaly label is `t`. */
  function CountPairs(truth: seq<int>, detected: seq<bool>, t: int, d: bool): (n: nat)
    requires |truth| == |detected|
    ensures n <= |truth|
  {
    if |truth| == 0 then 0
    else
      CountPairs(truth[1..], detected[1..], t, d)
      + (if truth[0] == t && detected[0] == d then 1 else 0)
  }

  function CountDetected(detected: seq<bool>): (n: nat)
    ensures n <= |detected|
  {
    if |detected| == 0 then 0 else CountDetected(detected[1..]) + (if detected[0] then 1 else 0)
  }

  /** Ratio with the source's `... if denominator > 0 else 0` guard. */
  function GuardedRatio(num: real, den: real): real
  {
    if den > 0.0 then num / den else 0.0
  }

  function EvaluateDetector(truth: seq<int>, detected: seq<bool>): (m: DetectionMetrics)
    requires |truth| == |detected|
    ensures 0.0 <= m.precision <= 1.0 && 0.0 <= m.recall <= 1.0 && 0.0 <= m.f1 <= 1.0
    ensures m.anomaliesDetected <= m.totalRecords == |truth|
  {
    var tp := CountPairs(truth, detected, 1, true) as real;
    var fp := CountPairs(truth, detected, 0, true) as real;
    var fn := CountPairs(truth, detected, 1, false) as real;
    var precision := GuardedRatio(tp, tp + fp);
    var recall := GuardedRatio(tp, tp + fn);
    UnitRatio(tp, tp + fp);
    UnitRatio(tp, tp + fn);
    var f1 := GuardedRatio(2.0 * precision * recall, precision + recall);
    HarmonicMeanBounded(precision, recall);
    DetectionMetrics(precision, recall, f1, CountDetected(detected), |truth|)
  }

  lemma UnitRatio(part: real, whole: real)
    requires 0.0 <= part <= whole
    ensures 0.0 <= GuardedRatio(part, whole) <= 1.0
  {
    if whole > 0.0 {
      assert part / whole <= whole / whole;
    }
  }

  /** The F1 score of a precision and a recall in [0,1] lies in [0,1]. */
  lemma HarmonicMeanBounded(p: real, r: real)
    requires 0.0 <= p <= 1.0 && 0.0 <= r <= 1.0
    ensures 0.0 <= GuardedRatio(2.0 * p * r, p + r) <= 1.0
  {
    if p + r > 0.0 {
      MulNonNegative(p, 1.0 - r);
      MulNonNegative(r, 1.0 - p);
      MulNonNegative(p, r);
      assert 2.0 * p * r == 2.0 * (p * r);
      UnitRatio(2.0 * p * r, p + r);
    }
  }

  class AnomalyDetector {
    const contamination: real
    var isTrained: bool
    /** The rows the isolation forest was fitted on. */
    var fitRows: seq<LabeledReading>
    var metrics: Option<DetectionMetrics>

    constructor(contamination: real)
      ensures this.contamination == contamination
      ensures !isTrained && fitRows == [] && metrics == None
    {
      this.contamination := contamination;
      isTrained := false;
      fitRows := [];
      metrics := None;
    }

    /**
     * `AnomalyDetector.train`: fit on the healthy rows only, then evaluate on
     * every row; `outlier` holds the fitted forest's verdict for each row.
     * Without a healthy row the fit raises and nothing is recorded.
     */
    method Train(rows: seq<LabeledReading>, outlier: seq<bool>) returns (r: Result<DetectionMetrics, PredictError>)
      requires |outlier| == |rows|
      modifies this
      ensures r.Failure? <==> |HealthyRows(rows)| == 0
      ensures r.Failure? ==>
        && r.error == NoHealthyRows
        && isTrained == old(isTrained) && fitRows == old(fitRows) && metrics == old(metrics)
      ensures r.Success? ==>
        && isTrained
        && fitRows == HealthyRows(rows)
        && r.value == EvaluateDetector(seq(|rows|, k requires 0 <= k < |rows| => rows[k].isAnomaly), outlier)
        && metrics == Some(r.value)
    {
      if |HealthyRows(rows)| == 0 {
        return Failure(NoHealthyRows);
      }
      fitRows := HealthyRows(rows);
      isTrained := true;
      var truth := seq(|rows|, k requires 0 <= k < |rows| => rows[k].isAnomaly);
      r := Success(EvaluateDetector(truth, outlier));
      metrics := Some(r.value);
    }

    /** `AnomalyDetector.predict` given the forest's raw output. */
    method Predict(reading: Reading, raw: DetectorOutput) returns (r: Result<AnomalyResult, PredictError>)
      ensures r.Failure? <==> !isTrained
      ensures r.Failure? ==> r.error == NotTrained
      ensures r.Success? ==>
        && (r.value.isAnomaly <==> raw.prediction == -1)
        && r.value.anomalyScore == -raw.decisionScore
        && r.value.severity == AnomalySeverityOf(raw.decisionScore)
    {
      if !isTrained {
        return Failure(NotTrained);
      }
      var x := FeatureVector(reading, SensorFeatures + [GaitScore, StanceSymmetry, StrideLength]);
      r := Success(AnomalyResult(raw.prediction == -1, -raw.decisionScore, AnomalySeverityOf(raw.decisionScore)));
    }
  }

  // ----------------------------------------------------------- gait regressor

  datatype LamenessLabel = Normal | MildLameness | ModerateLameness | SevereLameness {
    function Name(): string {
      match this
      case Normal => "Normal"
      case MildLameness => "Mild Lameness"
      case ModerateLameness => "Moderate Lameness"
      case SevereLameness => "Severe Lameness"
    }
    function Rank(): nat {
      match this
      case Normal => 0
      case MildLameness => 1
      case ModerateLameness => 2
      case SevereLameness => 3
    }
  }

  datatype GaitPrediction = GaitPrediction(gaitScore: real, lamenessLabel: LamenessLabel, needsAttention: bool)

  function LamenessLabelOf(score: real): LamenessLabel
  {
    if score < 2.0 then Normal
    else if score < 3.0 then MildLameness
    else if score < 4.0 then ModerateLameness
    else SevereLameness
  }

  /** Post-processing of the regression value: clamp to [1, 5], label by band, flag at 2.5. */
  function GaitPostProcess(raw: real): (g: GaitPrediction)
    ensures 1.0 <= g.gaitScore <= 5.0
    ensures 1.0 <= raw <= 5.0 ==> g.gaitScore == raw
    ensures raw < 1.0 ==> g.gaitScore == 1.0
    ensures raw > 5.0 ==> g.gaitScore == 5.0
    ensures g.needsAttention <==> g.gaitScore >= 2.5
    ensures g.lamenessLabel == LamenessLabelOf(g.gaitScore)
  {
    var score := Clip(raw, 1.0, 5.0);
    GaitPrediction(score, LamenessLabelOf(score), score >= 2.5)
  }

  /** Bands are ordered: a higher score never gets a milder label; the attention flag sits inside the Mild band, so a Normal label never needs attention and a Moderate or Severe one always does. */
  lemma LamenessBandsOrdered(s1: real, s2: real)
    ensures s1 <= s2 ==> LamenessLabelOf(s1).Rank() <= LamenessLabelOf(s2).Rank()
    ensures GaitPostProcess(s1).needsAttention ==> GaitPostProcess(s1).lamenessLabel != Normal
    ensures GaitPostProcess(s1).lamenessLabel.Rank() >= 2 ==> GaitPostProcess(s1).needsAttention
  {
  }

  class GaitPredictor {
    var isTrained: bool

    constructor()
      ensures !isTrained
    {
      isTrained := false;
    }

    method Train()
      modifies this
      ensures isTrained
    {
      isTrained := true;
    }

    /** `GaitPredictor.predict` given the regressor's raw value. */
    method Predict(reading: Reading, raw: real) returns (r: Result<GaitPrediction, PredictError>)
      ensures r.Failure? <==> !isTrained
      ensures r.Failure? ==> r.error == NotTrained
      ensures r.Success? ==> r.value == GaitPostProcess(raw) && 1.0 <= r.value.gaitScore <= 5.0
    {
      if !isTrained {
        return Failure(NotTrained);
      }
      var x := FeatureVector(reading, GaitFeatures);
      r := Success(GaitPostProcess(raw));
    }
  }

  // -------------------------------------------------------- disease forecaster

  datatype DiseaseForecast = DiseaseForecast(
    predictedDisease: string,
    confidence: real,
    diseaseProbabilities: map<string, real>,
    isHealthy: bool)

  /** `{classes[i]: p for i, p in enumerate(ps)}`: later entries overwrite earlier ones with the same key. */
  function ProbabilityMap(classes: seq<string>, ps: seq<real>): (m: map<string, real>)
    requires |ps| <= |classes|
    ensures m.Keys == set i | 0 <= i < |ps| :: classes[i]
    ensures forall i :: 0 <= i < |ps| && (forall j :: i < j < |ps| ==> classes[j] != classes[i]) ==> m[classes[i]] == ps[i]
  {
    if |ps| == 0 then map[]
    else
      var n := |ps| - 1;
      var m := ProbabilityMap(classes, ps[..n]);
      assert forall i :: 0 <= i < n ==> ps[..n][i] == ps[i];
      m[classes[n] := ps[n]]
  }

  class DiseaseForecaster {
    var isTrained: bool
    /** The label encoder's `classes_`. */
    var classes: seq<string>

    constructor()
      ensures !isTrained && classes == []
    {
      isTrained := false;
      classes := [];
    }

    /** Fitting is foreign; `encoderClasses` are the classes the label encoder learned. */
    method Train(encoderClasses: seq<string>)
      modifies this
      ensures isTrained && classes == encoderClasses
    {
      classes := encoderClasses;
      isTrained := true;
    }

    /** `DiseaseForecaster.predict` given the classifier's raw output. */
    method Predict(reading: Reading, raw: ClassifierOutput) returns (r: Result<DiseaseForecast, PredictError>)
      ensures !isTrained ==> r == Failure(NotTrained)
      ensures r.Success? <==>
        isTrained && 0 <= raw.prediction < |classes| && 0 < |raw.probabilities| <= |classes|
      ensures r.Success? ==>
        && r.value.predictedDisease == classes[raw.prediction]
        && (r.value.isHealthy <==> r.value.predictedDisease == "None")
        && r.value.confidence in raw.probabilities
        && (forall i :: 0 <= i < |raw.probabilities| ==> raw.probabilities[i] <= r.value.confidence)
        && r.value.diseaseProbabilities == ProbabilityMap(classes, raw.probabilities)
    {
      if !isTrained {
        return Failure(NotTrained);
      }
      var x := FeatureVector(reading, AllFeatures);
      if !(0 <= raw.prediction < |classes|) {
        return Failure(UnknownClass(raw.prediction));
      }
      var disease := classes[raw.prediction];
      var ps := raw.probabilities;
      if |ps| == 0 {
        return Failure(EmptyProbabilities);
      }
      if |ps| > |classes| {
        return Failure(UnknownClass(|classes|));
      }
      r := Success(DiseaseForecast(disease, Max(ps), ProbabilityMap(classes, ps), disease == "None"));
    }
  }
}
