/**
 * The simulated computer-vision analyzers: gait (locomotion scoring) and
 * behaviour (pattern detection). Each analysis is a deterministic formula
 * over the sensor reading plus Gaussian measurement noise; the noise draws
 * are parameters, and the wall-clock timestamp is a parameter too.
 */
module Vision {
  import opened Wrappers
  import opened Numerics
  import opened Telemetry
  import Taxonomy

  // ---------------------------------------------------------------------
  // Gait analysis
  // ---------------------------------------------------------------------

  /** The 1-5 locomotion scale. */
  type LocomotionScore = s: int | 1 <= s <= 5 witness 1

  datatype ScoreInfo = ScoreInfo(name: string, description: string)

  /** The `LOCOMOTION_SCORES` table. */
  function LocomotionInfo(s: LocomotionScore): ScoreInfo
  {
    if s == 1 then ScoreInfo("Normal", "Walks freely, flat back, makes long confident strides")
    else if s == 2 then ScoreInfo("Mildly Lame", "Slight asymmetry, shortened stride, slight head bob")
    else if s == 3 then ScoreInfo("Moderately Lame", "Obvious asymmetry, arched back, reluctance to bear weight")
    else if s == 4 then ScoreInfo("Lame", "Cannot walk properly, strong reluctance, visible discomfort")
    else ScoreInfo("Severely Lame", "Cannot walk or bear weight, refuses to move")
  }

  /** The five normalised gait components (0 = worst, 1 = best). */
  datatype GaitComponents = GaitComponents(activity: real, steps: real, restPattern: real, stride: real, symmetry: real)

  predicate ComponentsWithin(c: GaitComponents, lo: real, hi: real)
  {
    lo <= c.activity <= hi && lo <= c.steps <= hi && lo <= c.restPattern <= hi
    && lo <= c.stride <= hi && lo <= c.symmetry <= hi
  }

  /** The component scores read off a sensor reading, with the analyzer's defaults for absent fields. */
  function GaitComponentsOf(r: Reading): (c: GaitComponents)
    ensures ComponentsWithin(c, 0.0, 1.0)
  {
    var activity := GetOr(r, ActivityLevel, 70.0);
    var steps := GetOr(r, StepsCount, 3500.0);
    var lying := GetOr(r, LyingTime, 12.0);
    var stride := GetOr(r, StrideLength, 1.5);
    var symmetry := GetOr(r, StanceSymmetry, 0.95);
    GaitComponents(
      Clip(activity / 85.0, 0.0, 1.0),
      Clip(steps / 4000.0, 0.0, 1.0),
      Clip(1.0 - (lying - 12.0) / 8.0, 0.0, 1.0),
      Clip(stride / 1.6, 0.0, 1.0),
      Clip(symmetry, 0.0, 1.0))
  }

  /** The weighted composite of the components; the weights add up to 1. */
  function WeightedComposite(c: GaitComponents): (w: real)
    ensures ComponentsWithin(c, 0.0, 1.0) ==> 0.0 <= w <= 1.0
  {
    0.15 * c.activity + 0.15 * c.steps + 0.15 * c.restPattern + 0.25 * c.stride + 0.30 * c.symmetry
  }

  /** The composite after the measurement noise, clipped back into [0, 1]. */
  function NoisyComposite(c: GaitComponents, noise: real): (w: real)
    ensures 0.0 <= w <= 1.0
  {
    Clip(WeightedComposite(c) + noise, 0.0, 1.0)
  }

  /** The band table that turns a composite into a locomotion score. */
  function LocomotionBand(composite: real): LocomotionScore
  {
    if composite > 0.85 then 1
    else if composite > 0.70 then 2
    else if composite > 0.50 then 3
    else if composite > 0.30 then 4
    else 5
  }

  /** Each band boundary, in both directions: the score is at most k exactly when the composite clears the k-th cut. */
  lemma LocomotionBandCuts(composite: real)
    ensures LocomotionBand(composite) == 1 <==> composite > 0.85
    ensures LocomotionBand(composite) <= 2 <==> composite > 0.70
    ensures LocomotionBand(composite) <= 3 <==> composite > 0.50
    ensures LocomotionBand(composite) <= 4 <==> composite > 0.30
  {
  }

  /** A better composite never yields a worse (higher) locomotion score. */
  lemma LocomotionBandMonotone(lower: real, higher: real)
    requires lower <= higher
    ensures LocomotionBand(higher) <= LocomotionBand(lower)
  {
  }

  /** The draws `numpy.random.normal` makes during one gait analysis. */
  datatype GaitNoise = GaitNoise(composite: real, posture: real, headBob: real, speed: real)

  datatype CvMetrics = CvMetrics(
    backPostureAngle: real,
    headBobAmplitude: real,
    strideRegularity: real,
    weightDistribution: real,
    walkingSpeedMps: real)

  datatype Urgency = UrgencyNormal | UrgencyWarning | UrgencyCritical {
    function Name(): string {
      match this
      case UrgencyNormal => "Normal"
      case UrgencyWarning => "Warning"
      case UrgencyCritical => "Critical"
    }
  }

  /** One `analyze_gait` result; scores are percentages as reported. */
  datatype GaitAnalysis = GaitAnalysis(
    locomotionScore: LocomotionScore,
    name: string,
    description: string,
    compositeScore: real,
    componentScores: GaitComponents,
    cvMetrics: CvMetrics,
    needsIntervention: bool,
    urgency: Urgency,
    timestamp: string)

  function Percentages(c: GaitComponents): GaitComponents
  {
    GaitComponents(c.activity * 100.0, c.steps * 100.0, c.restPattern * 100.0, c.stride * 100.0, c.symmetry * 100.0)
  }

  /** What one gait analysis of reading `r` reports, given its noise draws and the current time. */
  function GaitAssessment(r: Reading, noise: GaitNoise, now: string): (a: GaitAnalysis)
    ensures 0.0 <= a.compositeScore <= 100.0
    ensures a.locomotionScore == LocomotionBand(a.compositeScore / 100.0)
    ensures ComponentsWithin(a.componentScores, 0.0, 100.0)
    ensures a.cvMetrics.strideRegularity == a.compositeScore
    ensures 0.0 <= a.cvMetrics.weightDistribution <= 100.0
    ensures a.cvMetrics.headBobAmplitude >= 0.0 && a.cvMetrics.walkingSpeedMps >= 0.2
  {
    var c := GaitComponentsOf(r);
    var composite := NoisyComposite(c, noise.composite);
    var s := LocomotionBand(composite);
    var info := LocomotionInfo(s);
    var metrics := CvMetrics(
      180.0 - (s - 1) as real * 8.0 + noise.posture,
      AtLeast(0.0, (s - 1) as real * 3.5 + noise.headBob),
      composite * 100.0,
      c.symmetry * 100.0,
      AtLeast(0.2, 1.4 - (s - 1) as real * 0.25 + noise.speed));
    var urgency := if s >= 4 then UrgencyCritical else if s >= 3 then UrgencyWarning else UrgencyNormal;
    GaitAnalysis(s, info.name, info.description, composite * 100.0, Percentages(c), metrics, s >= 3, urgency, now)
  }

  /** The flags of a gait analysis agree with its score and with each other, and the texts come from the score table. */
  lemma GaitFlagsAgree(r: Reading, noise: GaitNoise, now: string)
    ensures var a := GaitAssessment(r, noise, now);
      && (a.needsIntervention <==> a.locomotionScore >= 3)
      && (a.urgency == UrgencyCritical <==> a.locomotionScore >= 4)
      && (a.urgency == UrgencyWarning <==> a.locomotionScore == 3)
      && (a.urgency == UrgencyNormal <==> !a.needsIntervention)
      && a.name == LocomotionInfo(a.locomotionScore).name
      && a.description == LocomotionInfo(a.locomotionScore).description
  {
  }

  /**
   * Under the same noise, a reading whose every component scores at least as
   * well as another's never gets a worse locomotion score.
   */
  lemma GaitScoreFollowsComponents(worse: Reading, better: Reading, noise: GaitNoise, now: string)
    requires var w, b := GaitComponentsOf(worse), GaitComponentsOf(better);
      w.activity <= b.activity && w.steps <= b.steps && w.restPattern <= b.restPattern
      && w.stride <= b.stride && w.symmetry <= b.symmetry
    ensures GaitAssessment(better, noise, now).locomotionScore <= GaitAssessment(worse, noise, now).locomotionScore
  {
    var w, b := GaitComponentsOf(worse), GaitComponentsOf(better);
    assert WeightedComposite(w) <= WeightedComposite(b);
    LocomotionBandMonotone(NoisyComposite(w, noise.composite), NoisyComposite(b, noise.composite));
  }

  /**
   * A reading without any gait field takes every default (activity 70,
   * 3500 steps, 12 h lying, 1.5 m stride, 0.95 symmetry), whose composite is
   * above 0.92: it scores 1 unless the noise pulls it down by more than 0.07.
   */
  lemma DefaultReadingWalksNormally(noise: GaitNoise, now: string)
    requires noise.composite >= -0.07
    ensures GaitAssessment(map[], noise, now).locomotionScore == 1
    ensures !GaitAssessment(map[], noise, now).needsIntervention
  {
    var c := GaitComponentsOf(map[]);
    assert c == GaitComponents(70.0 / 85.0, 3500.0 / 4000.0, 1.0, 1.5 / 1.6, 0.95);
    assert WeightedComposite(c) > 0.92;
  }

  /** How many analyses carry locomotion score `s`. */
  function CountScore(results: seq<GaitAnalysis>, s: int): (n: nat)
    ensures n <= |results|
  {
    if |results| == 0 then 0
    else CountScore(results[..|results| - 1], s) + (if results[|results| - 1].locomotionScore == s then 1 else 0)
  }

  /** Every analysis falls in exactly one of the five score buckets. */
  lemma {:induction false} ScoreCountsCoverHerd(results: seq<GaitAnalysis>)
    ensures CountScore(results, 1) + CountScore(results, 2) + CountScore(results, 3)
      + CountScore(results, 4) + CountScore(results, 5) == |results|
  {
    if |results| > 0 {
      ScoreCountsCoverHerd(results[..|results| - 1]);
    }
  }

  function ScoreValues(results: seq<GaitAnalysis>): (v: seq<real>)
    ensures |v| == |results|
    ensures forall k :: 0 <= k < |v| ==> 1.0 <= v[k] <= 5.0
  {
    seq(|results|, k requires 0 <= k < |results| => results[k].locomotionScore as real)
  }

  datatype GaitHerdSummary = GaitHerdSummary(
    totalAnimals: nat,
    scoreDistribution: map<int, nat>,
    normalPct: real,
    lamePct: real,
    criticalCount: nat,
    avgLocomotionScore: Option<real>,
    individualResults: seq<GaitAnalysis>)

  /**
   * The herd gait summary over already computed analyses: the score
   * histogram, the share of normal and of lame (score 3 or worse) animals,
   * the count of scores 4 and 5, and the mean score (`numpy.mean` of an
   * empty herd is NaN, modelled as `None`).
   */
  method SummarizeGait(results: seq<GaitAnalysis>) returns (summary: GaitHerdSummary)
    ensures summary.totalAnimals == |results| && summary.individualResults == results
    ensures summary.scoreDistribution.Keys == {1, 2, 3, 4, 5}
    ensures forall s :: s in summary.scoreDistribution ==> summary.scoreDistribution[s] == CountScore(results, s)
    ensures summary.scoreDistribution[1] + summary.scoreDistribution[2] + summary.scoreDistribution[3]
      + summary.scoreDistribution[4] + summary.scoreDistribution[5] == summary.totalAnimals
    ensures summary.criticalCount == summary.scoreDistribution[4] + summary.scoreDistribution[5]
    ensures 0.0 <= summary.normalPct <= 100.0 && 0.0 <= summary.lamePct <= 100.0
    ensures summary.normalPct + summary.lamePct <= 100.0
    ensures |results| == 0 ==> summary.normalPct == 0.0 && summary.lamePct == 0.0 && summary.avgLocomotionScore == None
    ensures |results| > 0 ==> summary.avgLocomotionScore.Some? && 1.0 <= summary.avgLocomotionScore.value <= 5.0
  {
    var counts: map<int, nat> := map[1 := 0, 2 := 0, 3 := 0, 4 := 0, 5 := 0];
    var i := 0;
    while i < |results|
      invariant 0 <= i <= |results|
      invariant counts.Keys == {1, 2, 3, 4, 5}
      invariant forall s :: s in counts ==> counts[s] == CountScore(results[..i], s)
    {
      assert results[..i + 1][..i] == results[..i];
      var s := results[i].locomotionScore;
      counts := counts[s := counts[s] + 1];
      i := i + 1;
    }
    assert results[..i] == results;
    ScoreCountsCoverHerd(results);
    var total := |results|;
    var lame := counts[3] + counts[4] + counts[5];
    var normalPct := Percent(counts[1], total);
    var lamePct := Percent(lame, total);
    PercentsAddUp(counts[1], lame, total);
    var avg: Option<real> := None;
    if total > 0 {
      var scores := ScoreValues(results);
      MeanWithin(scores, 1.0, 5.0);
      avg := Some(Mean(scores));
    }
    summary := GaitHerdSummary(total, counts, normalPct, lamePct, counts[4] + counts[5], avg, results);
  }

  /** The gait analyzer: every analysis it makes is appended to its history. */
  class GaitAnalyzer {
    var analysisHistory: seq<GaitAnalysis>

    constructor()
      ensures analysisHistory == []
    {
      analysisHistory := [];
    }

    method AnalyzeGait(r: Reading, noise: GaitNoise, now: string) returns (a: GaitAnalysis)
      modifies this
      ensures a == GaitAssessment(r, noise, now)
      ensures analysisHistory == old(analysisHistory) + [a]
    {
      a := GaitAssessment(r, noise, now);
      analysisHistory := analysisHistory + [a];
    }

    /** Analyses every reading of the herd in order, then summarises them. */
    method GetHerdGaitSummary(readings: seq<Reading>, noises: seq<GaitNoise>, nows: seq<string>)
      returns (summary: GaitHerdSummary)
      requires |noises| == |readings| && |nows| == |readings|
      modifies this
      ensures |summary.individualResults| == |readings| == summary.totalAnimals
      ensures forall k :: 0 <= k < |readings| ==>
        summary.individualResults[k] == GaitAssessment(readings[k], noises[k], nows[k])
      ensures analysisHistory == old(analysisHistory) + summary.individualResults
      ensures summary.scoreDistribution.Keys == {1, 2, 3, 4, 5}
      ensures forall s :: s in summary.scoreDistribution ==>
        summary.scoreDistribution[s] == CountScore(summary.individualResults, s)
      ensures summary.criticalCount == summary.scoreDistribution[4] + summary.scoreDistribution[5]
    {
      var results: seq<GaitAnalysis> := [];
      var i := 0;
      while i < |readings|
        invariant 0 <= i <= |readings| && |results| == i
        invariant forall k :: 0 <= k < i ==> results[k] == GaitAssessment(readings[k], noises[k], nows[k])
        invariant analysisHistory == old(analysisHistory) + results
      {
        var a := AnalyzeGait(readings[i], noises[i], nows[i]);
        results := results + [a];
        i := i + 1;
      }
      summary := SummarizeGait(results);
    }
  }

  // ---------------------------------------------------------------------
  // Behaviour analysis
  // ---------------------------------------------------------------------

  datatype BehaviorPattern = NormalBehavior | RespiratoryDistress | Isolation | Lethargy {
    function Name(): string {
      match this
      case NormalBehavior => "Normal"
      case RespiratoryDistress => "Respiratory_Distress"
      case Isolation => "Isolation"
      case Lethargy => "Lethargy"
    }
  }

  datatype BehaviorMetrics = BehaviorMetrics(
    socialScore: real,
    feedingFrequency: real,
    postureScore: real,
    respiratoryDistress: real)

  /** The four `numpy.random.normal` draws of one behaviour analysis. */
  datatype BehaviorNoise = BehaviorNoise(social: real, feeding: real, posture: real, distress: real)

  /** The sensor inputs of a behaviour analysis, with the analyzer's defaults for absent fields. */
  datatype BehaviorInputs = BehaviorInputs(
    activity: real,
    respiratoryRate: real,
    feedIntake: real,
    rumination: real,
    bodyTemp: real)

  function BehaviorInputsOf(r: Reading): BehaviorInputs
  {
    BehaviorInputs(
      GetOr(r, ActivityLevel, 70.0),
      GetOr(r, RespiratoryRate, 22.0),
      GetOr(r, FeedIntake, 22.0),
      GetOr(r, RuminationMin, 450.0),
      GetOr(r, BodyTemp, 38.8))
  }

  predicate MetricsInRange(m: BehaviorMetrics)
  {
    0.0 <= m.socialScore <= 100.0 && 1.0 <= m.feedingFrequency <= 20.0
    && 0.0 <= m.postureScore <= 100.0 && 0.0 <= m.respiratoryDistress <= 100.0
  }

  function BehaviorMetricsOf(x: BehaviorInputs, n: BehaviorNoise): (m: BehaviorMetrics)
    ensures MetricsInRange(m)
  {
    var excessBreathing := AtLeast(0.0, x.respiratoryRate - 25.0);
    BehaviorMetrics(
      Clip(x.activity * 1.2 + n.social, 0.0, 100.0),
      Clip(x.feedIntake * 0.5 + n.feeding, 1.0, 20.0),
      Clip(100.0 - Abs(x.bodyTemp - 38.85) * 15.0 - excessBreathing * 1.5 + n.posture, 0.0, 100.0),
      Clip(excessBreathing * 3.0 + AtLeast(0.0, x.bodyTemp - 39.5) * 20.0 + n.distress, 0.0, 100.0))
  }

  /** The decision order of the pattern classifier. */
  function PatternOf(m: BehaviorMetrics, x: BehaviorInputs): BehaviorPattern
  {
    if m.respiratoryDistress > 50.0 then RespiratoryDistress
    else if m.socialScore < 30.0 then Isolation
    else if x.activity < 30.0 && x.rumination < 300.0 then Lethargy
    else NormalBehavior
  }

  /** Each pattern in terms of the metrics, with the earlier rules taking precedence. */
  lemma PatternDecisionOrder(m: BehaviorMetrics, x: BehaviorInputs)
    ensures PatternOf(m, x) == RespiratoryDistress <==> m.respiratoryDistress > 50.0
    ensures PatternOf(m, x) == Isolation <==> m.respiratoryDistress <= 50.0 && m.socialScore < 30.0
    ensures PatternOf(m, x) == Lethargy <==>
      m.respiratoryDistress <= 50.0 && m.socialScore >= 30.0 && x.activity < 30.0 && x.rumination < 300.0
    ensures PatternOf(m, x) == NormalBehavior <==>
      m.respiratoryDistress <= 50.0 && m.socialScore >= 30.0 && !(x.activity < 30.0 && x.rumination < 300.0)
  {
  }

  /** The overall behavioural health score. */
  function BehaviorHealth(m: BehaviorMetrics): (h: real)
    ensures 0.0 <= h <= 100.0
  {
    Clip(0.25 * m.socialScore + 0.20 * (m.feedingFrequency / 14.0 * 100.0) + 0.25 * m.postureScore
      + 0.30 * (100.0 - m.respiratoryDistress), 0.0, 100.0)
  }

  /** The four kinds of behaviour sub-alert, in the order they are raised. */
  datatype SubAlertKind = DistressAlert | IsolationAlert | FeedingAlert | PostureAlert {
    function Type(): string {
      match this
      case DistressAlert => "Respiratory Distress"
      case IsolationAlert => "Social Isolation"
      case FeedingAlert => "Reduced Feeding"
      case PostureAlert => "Abnormal Posture"
    }

    function Severity(): string {
      match this
      case DistressAlert => Taxonomy.High
      case IsolationAlert => Taxonomy.Medium
      case FeedingAlert => Taxonomy.Medium
      case PostureAlert => Taxonomy.High
    }

    function Rank(): nat {
      match this
      case DistressAlert => 0
      case IsolationAlert => 1
      case FeedingAlert => 2
      case PostureAlert => 3
    }

    /** The metric the sub-alert reports in its message. */
    function Metric(m: BehaviorMetrics): real {
      match this
      case DistressAlert => m.respiratoryDistress
      case IsolationAlert => m.socialScore
      case FeedingAlert => m.feedingFrequency
      case PostureAlert => m.postureScore
    }

    /** The threshold that raises the sub-alert. */
    predicate Raised(m: BehaviorMetrics) {
      match this
      case DistressAlert => m.respiratoryDistress > 60.0
      case IsolationAlert => m.socialScore < 25.0
      case FeedingAlert => m.feedingFrequency < 5.0
      case PostureAlert => m.postureScore < 50.0
    }
  }

  /** A sub-alert; its message is the kind's text with the offending metric value. */
  datatype SubAlert = SubAlert(kind: SubAlertKind, value: real) {
    function Severity(): string {
      kind.Severity()
    }
  }

  /** The order in which the analyzer checks the sub-alert thresholds. */
  const CheckOrder: seq<SubAlertKind> := [DistressAlert, IsolationAlert, FeedingAlert, PostureAlert]

  /** The kinds of `ks` whose thresholds metrics `m` cross, in the order of `ks`. */
  function RaisedAmong(ks: seq<SubAlertKind>, m: BehaviorMetrics): (raised: seq<SubAlertKind>)
    ensures |raised| <= |ks|
  {
    if |ks| == 0 then []
    else (if ks[0].Raised(m) then [ks[0]] else []) + RaisedAmong(ks[1..], m)
  }

  function RaisedKinds(m: BehaviorMetrics): seq<SubAlertKind>
  {
    RaisedAmong(CheckOrder, m)
  }

  predicate RankIncreasing(ks: seq<SubAlertKind>)
  {
    forall i, j :: 0 <= i < j < |ks| ==> ks[i].Rank() < ks[j].Rank()
  }

  /** Filtering keeps exactly the raised kinds and keeps them in order. */
  lemma {:induction false} RaisedAmongExact(ks: seq<SubAlertKind>, m: BehaviorMetrics)
    requires RankIncreasing(ks)
    ensures forall kind :: kind in RaisedAmong(ks, m) <==> kind in ks && kind.Raised(m)
    ensures RankIncreasing(RaisedAmong(ks, m))
  {
    if |ks| > 0 {
      var rest := RaisedAmong(ks[1..], m);
      RaisedAmongExact(ks[1..], m);
      assert forall kind :: kind in ks <==> kind == ks[0] || kind in ks[1..];
      assert forall kind :: kind in rest ==> ks[0].Rank() < kind.Rank();
    }
  }

  function SubAlertsOf(m: BehaviorMetrics): (alerts: seq<SubAlert>)
    ensures |alerts| <= 4
  {
    var ks := RaisedKinds(m);
    seq(|ks|, k requires 0 <= k < |ks| => SubAlert(ks[k], ks[k].Metric(m)))
  }

  function Kinds(alerts: seq<SubAlert>): (ks: seq<SubAlertKind>)
    ensures |ks| == |alerts|
  {
    seq(|alerts|, k requires 0 <= k < |alerts| => alerts[k].kind)
  }

  /** One `analyze_behavior` result. */
  datatype BehaviorAnalysis = BehaviorAnalysis(
    pattern: BehaviorPattern,
    healthScore: real,
    metrics: BehaviorMetrics,
    alerts: seq<SubAlert>,
    isAbnormal: bool,
    timestamp: string)

  function BehaviorAssessment(r: Reading, n: BehaviorNoise, now: string): (b: BehaviorAnalysis)
    ensures MetricsInRange(b.metrics) && 0.0 <= b.healthScore <= 100.0
    ensures b.isAbnormal <==> b.pattern != NormalBehavior
    ensures |b.alerts| <= 4
  {
    var x := BehaviorInputsOf(r);
    var m := BehaviorMetricsOf(x, n);
    var p := PatternOf(m, x);
    BehaviorAnalysis(p, BehaviorHealth(m), m, SubAlertsOf(m), p != NormalBehavior, now)
  }

  /**
   * The sub-alerts of a behaviour analysis: each kind is raised exactly when
   * its metric crosses its threshold and reports that metric, they come in
   * the fixed kind order with no repeats, the distress sub-alert only comes
   * with the respiratory-distress pattern, and the isolation sub-alert only
   * with an abnormal pattern.
   */
  lemma SubAlertsConsistent(r: Reading, n: BehaviorNoise, now: string)
    ensures var b := BehaviorAssessment(r, n, now);
      && (forall kind :: kind in Kinds(b.alerts) <==> kind.Raised(b.metrics))
      && (forall a :: a in b.alerts ==> a.value == a.kind.Metric(b.metrics))
      && (forall i, j :: 0 <= i < j < |b.alerts| ==> b.alerts[i].kind.Rank() < b.alerts[j].kind.Rank())
      && (DistressAlert in Kinds(b.alerts) ==> b.pattern == RespiratoryDistress)
      && (IsolationAlert in Kinds(b.alerts) ==> b.isAbnormal)
  {
    var b := BehaviorAssessment(r, n, now);
    assert Kinds(b.alerts) == RaisedKinds(b.metrics);
    RaisedAmongExact(CheckOrder, b.metrics);
  }

  /** How many analyses found pattern `p`. */
  function CountPattern(results: seq<BehaviorAnalysis>, p: BehaviorPattern): (n: nat)
    ensures n <= |results|
  {
    if |results| == 0 then 0
    else CountPattern(results[..|results| - 1], p) + (if results[|results| - 1].pattern == p then 1 else 0)
  }

  /** How many analyses are flagged abnormal. */
  function CountAbnormal(results: seq<BehaviorAnalysis>): (n: nat)
    ensures n <= |results|
  {
    if |results| == 0 then 0
    else CountAbnormal(results[..|results| - 1]) + (if results[|results| - 1].isAbnormal then 1 else 0)
  }

  /** When every analysis flags exactly its non-normal patterns, the normal and the abnormal ones make up the herd. */
  lemma {:induction false} NormalAndAbnormalCoverHerd(results: seq<BehaviorAnalysis>)
    requires forall k :: 0 <= k < |results| ==> (results[k].isAbnormal <==> results[k].pattern != NormalBehavior)
    ensures CountPattern(results, NormalBehavior) + CountAbnormal(results) == |results|
  {
    if |results| > 0 {
      NormalAndAbnormalCoverHerd(results[..|results| - 1]);
    }
  }

  /** All sub-alerts of the herd, analysis by analysis. */
  function AllSubAlerts(results: seq<BehaviorAnalysis>): seq<SubAlert>
  {
    if |results| == 0 then [] else AllSubAlerts(results[..|results| - 1]) + results[|results| - 1].alerts
  }

  function CountHighAlerts(alerts: seq<SubAlert>): (n: nat)
    ensures n <= |alerts|
  {
    if |alerts| == 0 then 0
    else CountHighAlerts(alerts[..|alerts| - 1]) + (if alerts[|alerts| - 1].Severity() == Taxonomy.High then 1 else 0)
  }

  lemma {:induction false} CountHighAlertsAppend(a: seq<SubAlert>, b: seq<SubAlert>)
    ensures CountHighAlerts(a + b) == CountHighAlerts(a) + CountHighAlerts(b)
  {
    if |b| > 0 {
      assert (a + b)[..|a + b| - 1] == a + b[..|b| - 1];
      CountHighAlertsAppend(a, b[..|b| - 1]);
    } else {
      assert a + b == a;
    }
  }

  function HealthScores(results: seq<BehaviorAnalysis>): (v: seq<real>)
    ensures |v| == |results|
  {
    seq(|results|, k requires 0 <= k < |results| => results[k].healthScore)
  }

  /** The pattern histogram of the herd summary: only patterns that occur become keys. */
  method CountPatterns(results: seq<BehaviorAnalysis>) returns (counts: map<BehaviorPattern, nat>)
    ensures forall p :: p in counts <==> CountPattern(results, p) > 0
    ensures forall p :: p in counts ==> counts[p] == CountPattern(results, p)
  {
    counts := map[];
    var i := 0;
    while i < |results|
      invariant 0 <= i <= |results|
      invariant forall p :: p in counts <==> CountPattern(results[..i], p) > 0
      invariant forall p :: p in counts ==> counts[p] == CountPattern(results[..i], p)
    {
      assert results[..i + 1][..i] == results[..i];
      var p := results[i].pattern;
      counts := counts[p := (if p in counts then counts[p] else 0) + 1];
      i := i + 1;
    }
    assert results[..i] == results;
  }

  /** The herd's sub-alerts, gathered analysis by analysis. */
  method CollectSubAlerts(results: seq<BehaviorAnalysis>) returns (alerts: seq<SubAlert>)
    ensures alerts == AllSubAlerts(results)
    ensures forall k, a :: 0 <= k < |results| && a in results[k].alerts ==> a in alerts
  {
    alerts := [];
    var i := 0;
    while i < |results|
      invariant 0 <= i <= |results|
      invariant alerts == AllSubAlerts(results[..i])
      invariant forall k, a :: 0 <= k < i && a in results[k].alerts ==> a in alerts
    {
      assert results[..i + 1][..i] == results[..i];
      alerts := alerts + results[i].alerts;
      i := i + 1;
    }
    assert results[..i] == results;
  }

  /** The number of HIGH sub-alerts. */
  method CountHigh(alerts: seq<SubAlert>) returns (high: nat)
    ensures high == CountHighAlerts(alerts) <= |alerts|
  {
    high := 0;
    var i := 0;
    while i < |alerts|
      invariant 0 <= i <= |alerts|
      invariant high == CountHighAlerts(alerts[..i])
    {
      assert alerts[..i + 1][..i] == alerts[..i];
      if alerts[i].Severity() == Taxonomy.High {
        high := high + 1;
      }
      i := i + 1;
    }
    assert alerts[..i] == alerts;
  }

  datatype BehaviorHerdSummary = BehaviorHerdSummary(
    totalAnimals: nat,
    patternDistribution: map<BehaviorPattern, nat>,
    normalPct: real,
    abnormalCount: int,
    avgBehaviorHealth: Option<real>,
    totalAlerts: nat,
    highSeverityAlerts: nat,
    individualResults: seq<BehaviorAnalysis>)

  /**
   * The herd behaviour summary over already computed analyses: the pattern
   * histogram (only patterns that occur are keys), the share of normal
   * animals, the abnormal count, the mean health score (NaN, here `None`,
   * for an empty herd) and the sub-alert totals.
   */
  method SummarizeBehavior(results: seq<BehaviorAnalysis>) returns (summary: BehaviorHerdSummary)
    ensures summary.totalAnimals == |results| && summary.individualResults == results
    ensures forall p :: p in summary.patternDistribution <==> CountPattern(results, p) > 0
    ensures forall p :: p in summary.patternDistribution ==> summary.patternDistribution[p] == CountPattern(results, p)
    ensures summary.abnormalCount == |results| - CountPattern(results, NormalBehavior)
    ensures (forall k :: 0 <= k < |results| ==> (results[k].isAbnormal <==> results[k].pattern != NormalBehavior))
      ==> summary.abnormalCount == CountAbnormal(results)
    ensures 0.0 <= summary.normalPct <= 100.0
    ensures summary.totalAlerts == |AllSubAlerts(results)|
    ensures summary.highSeverityAlerts == CountHighAlerts(AllSubAlerts(results)) <= summary.totalAlerts
    ensures |results| == 0 <==> summary.avgBehaviorHealth == None
    ensures ((forall k :: 0 <= k < |results| ==> 0.0 <= results[k].healthScore <= 100.0)
      && summary.avgBehaviorHealth.Some?) ==> 0.0 <= summary.avgBehaviorHealth.value <= 100.0
  {
    var counts := CountPatterns(results);
    var alerts := CollectSubAlerts(results);
    var high := CountHigh(alerts);
    var total := |results|;
    var normal := if NormalBehavior in counts then counts[NormalBehavior] else 0;
    var normalPct := Percent(normal, total);
    var avg: Option<real> := None;
    if total > 0 {
      var scores := HealthScores(results);
      avg := Some(Mean(scores));
      if forall k :: 0 <= k < |results| ==> 0.0 <= results[k].healthScore <= 100.0 {
        MeanWithin(scores, 0.0, 100.0);
      }
    }
    if forall k :: 0 <= k < |results| ==> (results[k].isAbnormal <==> results[k].pattern != NormalBehavior) {
      NormalAndAbnormalCoverHerd(results);
    }
    summary := BehaviorHerdSummary(total, counts, normalPct, total - normal, avg, |alerts|, high, results);
  }

  /** The behaviour analyzer: every analysis it makes is appended to its history. */
  class BehaviorAnalyzer {
    var behaviorHistory: seq<BehaviorAnalysis>

    constructor()
      ensures behaviorHistory == []
    {
      behaviorHistory := [];
    }

    method AnalyzeBehavior(r: Reading, n: BehaviorNoise, now: string) returns (b: BehaviorAnalysis)
      modifies this
      ensures b == BehaviorAssessment(r, n, now)
      ensures behaviorHistory == old(behaviorHistory) + [b]
    {
      b := BehaviorAssessment(r, n, now);
      behaviorHistory := behaviorHistory + [b];
    }

    /** Analyses every reading of the herd in order, then summarises them. */
    method AnalyzeHerdBehavior(readings: seq<Reading>, noises: seq<BehaviorNoise>, nows: seq<string>)
      returns (summary: BehaviorHerdSummary)
      requires |noises| == |readings| && |nows| == |readings|
      modifies this
      ensures |summary.individualResults| == |readings| == summary.totalAnimals
      ensures forall k :: 0 <= k < |readings| ==>
        summary.individualResults[k] == BehaviorAssessment(readings[k], noises[k], nows[k])
      ensures behaviorHistory == old(behaviorHistory) + summary.individualResults
      ensures summary.abnormalCount == CountAbnormal(summary.individualResults)
    {
      var results: seq<BehaviorAnalysis> := [];
      var i := 0;
      while i < |readings|
        invariant 0 <= i <= |readings| && |results| == i
        invariant forall k :: 0 <= k < i ==> results[k] == BehaviorAssessment(readings[k], noises[k], nows[k])
        invariant behaviorHistory == old(behaviorHistory) + results
      {
        var b := AnalyzeBehavior(readings[i], noises[i], nows[i]);
        results := results + [b];
        i := i + 1;
      }
      summary := SummarizeBehavior(results);
    }
  }
}
