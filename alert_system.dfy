/**
 * The biosecurity alert system: it turns the outputs of the prediction
 * models and of the vision analyzers into alerts, keeps the active alerts,
 * an append-only history and per-severity counters, answers filtered and
 * priority-sorted queries and a summary, and acknowledges, resolves and
 * clears alerts in place.
 *
 * Alerts are objects: the same alert is shared by the active list and the
 * history, and acknowledging or resolving it changes it in both.
 */
module Alerts {
  import opened Wrappers
  import opened Taxonomy
  import Telemetry
  import Models
  import Vision

  datatype AlertStatus = Active | Resolved {
    function Name(): string {
      match this
      case Active => "ACTIVE"
      case Resolved => "RESOLVED"
    }
  }

  /** What a rule asks `generate_alert` for: the animal, category, severity, text and source model. */
  datatype AlertRequest = AlertRequest(
    animalId: string,
    category: string,
    severity: string,
    message: string,
    modelSource: Option<string>)

  class Alert {
    const alertId: string
    const timestamp: string
    const animalId: string
    const category: string
    const categoryLabel: string
    const severity: string
    const severityInfo: SeverityInfo
    const message: string
    const modelSource: Option<string>
    var status: AlertStatus
    var acknowledged: bool
    var acknowledgedAt: Option<string>
    var resolvedAt: Option<string>
    var resolutionNote: Option<string>

    constructor (alertId: string, timestamp: string, req: AlertRequest)
      ensures this.alertId == alertId && this.timestamp == timestamp && Realizes(this, req)
      ensures categoryLabel == CategoryLabel(req.category) && severityInfo == SeverityInfoOf(req.severity)
      ensures status == Active && !acknowledged
      ensures acknowledgedAt.None? && resolvedAt.None? && resolutionNote.None?
    {
      this.alertId := alertId;
      this.timestamp := timestamp;
      animalId := req.animalId;
      category := req.category;
      categoryLabel := CategoryLabel(req.category);
      severity := req.severity;
      severityInfo := SeverityInfoOf(req.severity);
      message := req.message;
      modelSource := req.modelSource;
      status := Active;
      acknowledged := false;
      acknowledgedAt := None;
      resolvedAt := None;
      resolutionNote := None;
    }
  }

  /** Alert `a` carries what request `r` asked for. */
  predicate Realizes(a: Alert, r: AlertRequest)
  {
    a.animalId == r.animalId && a.category == r.category && a.severity == r.severity
    && a.message == r.message && a.modelSource == r.modelSource
  }

  // ---------------------------------------------------------------------
  // The rules: which alerts each kind of model output asks for
  // ---------------------------------------------------------------------

  /** The keys of a health result that the rule reads; `status` defaults to 0. */
  datatype HealthInput = HealthInput(status: Option<int>)

  function HealthSeverity(status: int): Option<string>
  {
    if status == 2 then Some(Critical) else if status == 1 then Some(High) else None
  }

  /** Status 2 asks for a CRITICAL health-risk alert, status 1 for a HIGH one, anything else for none. */
  function HealthRequests(animalId: string, h: HealthInput, message: string): (reqs: seq<AlertRequest>)
    ensures |reqs| <= 1
  {
    var status := if h.status.Some? then h.status.value else 0;
    match HealthSeverity(status)
    case None => []
    case Some(sev) => [AlertRequest(animalId, HealthRisk, sev, message, Some("HealthPredictor"))]
  }

  /** The keys of an anomaly result that the rule reads: the truth of `is_anomaly` (absent is false) and `severity`. */
  datatype AnomalyInput = AnomalyInput(isAnomaly: bool, severity: Option<string>)

  /** `{'High': 'CRITICAL', 'Medium': 'HIGH', 'Low': 'MEDIUM'}.get(level, 'MEDIUM')` */
  function AnomalyAlertSeverity(level: string): (sev: string)
    ensures KnownSeverity(sev) && sev != Low
  {
    if level == "High" then Critical else if level == "Medium" then High else Medium
  }

  function AnomalyRequests(animalId: string, x: AnomalyInput, message: string): (reqs: seq<AlertRequest>)
    ensures |reqs| <= 1
  {
    if !x.isAnomaly then []
    else
      var level := if x.severity.Some? then x.severity.value else "Low";
      [AlertRequest(animalId, Anomaly, AnomalyAlertSeverity(level), message, Some("AnomalyDetector"))]
  }

  /**
   * The keys of a gait result that the rule reads: the truth of
   * `needs_attention` and `needs_intervention` (absent is false), and the
   * score under `gait_score` or else `locomotion_score`.
   */
  datatype GaitInput = GaitInput(needsAttention: bool, needsIntervention: bool, gaitScore: Option<real>, locomotionScore: Option<real>)

  function GaitScoreOf(g: GaitInput): real
  {
    if g.gaitScore.Some? then g.gaitScore.value
    else if g.locomotionScore.Some? then g.locomotionScore.value
    else 1.0
  }

  function GaitAlertSeverity(score: real): (sev: string)
    ensures KnownSeverity(sev) && sev != Low
  {
    if score >= 4.0 then Critical else if score >= 3.0 then High else Medium
  }

  function GaitRequests(animalId: string, g: GaitInput, message: string): (reqs: seq<AlertRequest>)
    ensures |reqs| <= 1
  {
    if g.needsAttention || g.needsIntervention then
      [AlertRequest(animalId, Lameness, GaitAlertSeverity(GaitScoreOf(g)), message, Some("GaitAnalyzer"))]
    else []
  }

  /** The keys of a disease forecast that the rule reads: `is_healthy` (absent is healthy) and `confidence` (absent is 0). */
  datatype DiseaseInput = DiseaseInput(isHealthy: Option<bool>, confidence: Option<real>)

  function DiseaseAlertSeverity(confidence: real): (sev: string)
    ensures KnownSeverity(sev) && sev != Low
  {
    if confidence > 0.75 then Critical else if confidence > 0.5 then High else Medium
  }

  function DiseaseRequests(animalId: string, d: DiseaseInput, message: string): (reqs: seq<AlertRequest>)
    ensures |reqs| <= 1
  {
    if d.isHealthy.None? || d.isHealthy.value then []
    else
      var confidence := if d.confidence.Some? then d.confidence.value else 0.0;
      [AlertRequest(animalId, DiseaseRisk, DiseaseAlertSeverity(confidence), message, Some("DiseaseForecaster"))]
  }

  /** One sub-alert of a behaviour result: its `severity` (absent is MEDIUM) and `message` (absent is empty). */
  datatype SubAlertInput = SubAlertInput(severity: Option<string>, message: Option<string>)

  /** The keys of a behaviour result that the rule reads. */
  datatype BehaviorInput = BehaviorInput(
    isAbnormal: bool,
    pattern: Option<string>,
    healthScore: Option<real>,
    subAlerts: seq<SubAlertInput>)

  function BehaviorAlertSeverity(healthScore: real): (sev: string)
    ensures KnownSeverity(sev) && sev != Low
  {
    if healthScore < 30.0 then Critical else if healthScore < 50.0 then High else Medium
  }

  /** `{'Respiratory_Distress': 'RESPIRATORY', 'Isolation': 'ISOLATION', 'Lethargy': 'ANOMALY'}.get(pattern, 'ANOMALY')` */
  function BehaviorCategory(pattern: string): string
  {
    if pattern == "Respiratory_Distress" then Respiratory else if pattern == "Isolation" then Isolation else Anomaly
  }

  function SubAlertRequest(animalId: string, s: SubAlertInput): AlertRequest
  {
    AlertRequest(animalId, Biosecurity,
      if s.severity.Some? then s.severity.value else Medium,
      if s.message.Some? then s.message.value else "",
      Some("BehaviorAnalyzer"))
  }

  /** The primary alert of an abnormal behaviour result, if any. */
  function BehaviorPrimary(animalId: string, b: BehaviorInput, message: string): (reqs: seq<AlertRequest>)
    ensures |reqs| == (if b.isAbnormal then 1 else 0)
  {
    if !b.isAbnormal then []
    else
      var pattern := if b.pattern.Some? then b.pattern.value else "Unknown";
      var score := if b.healthScore.Some? then b.healthScore.value else 100.0;
      [AlertRequest(animalId, BehaviorCategory(pattern), BehaviorAlertSeverity(score), message, Some("BehaviorAnalyzer"))]
  }

  /** The primary alert, then one BIOSECURITY alert per sub-alert, in order. */
  function BehaviorRequests(animalId: string, b: BehaviorInput, message: string): seq<AlertRequest>
  {
    BehaviorPrimary(animalId, b, message)
      + seq(|b.subAlerts|, i requires 0 <= i < |b.subAlerts| => SubAlertRequest(animalId, b.subAlerts[i]))
  }

  /** A behaviour result asks for one alert when abnormal plus one per sub-alert, and every sub-alert becomes a BIOSECURITY alert with the sub-alert's severity (MEDIUM when it has none). */
  lemma BehaviorRequestCount(animalId: string, b: BehaviorInput, message: string)
    ensures var reqs := BehaviorRequests(animalId, b, message);
      var k := if b.isAbnormal then 1 else 0;
      && |reqs| == k + |b.subAlerts|
      && (forall i :: 0 <= i < |b.subAlerts| ==>
            reqs[k + i].category == Biosecurity
            && reqs[k + i].severity == (if b.subAlerts[i].severity.Some? then b.subAlerts[i].severity.value else Medium))
      && (b.isAbnormal ==> reqs[0].category != Biosecurity)
  {
  }

  // Escalation: a worse model output never yields a less urgent alert.

  lemma GaitEscalation(s1: real, s2: real)
    requires s1 <= s2
    ensures SortPriority(GaitAlertSeverity(s2)) <= SortPriority(GaitAlertSeverity(s1))
  {
  }

  lemma DiseaseEscalation(c1: real, c2: real)
    requires c1 <= c2
    ensures SortPriority(DiseaseAlertSeverity(c2)) <= SortPriority(DiseaseAlertSeverity(c1))
  {
  }

  lemma BehaviorEscalation(h1: real, h2: real)
    requires h1 <= h2
    ensures SortPriority(BehaviorAlertSeverity(h1)) <= SortPriority(BehaviorAlertSeverity(h2))
  {
  }

  // ---------------------------------------------------------------------
  // Where the inputs come from: the predictors and the vision analyzers
  // ---------------------------------------------------------------------

  function HealthInputOf(p: Models.HealthPrediction): HealthInput
  {
    HealthInput(Some(p.status))
  }

  /** A healthy prediction raises nothing; otherwise one health-risk alert whose priority is 3 minus the status. */
  lemma HealthPredictionAlerts(animalId: string, p: Models.HealthPrediction, message: string)
    requires 0 <= p.status <= 2
    ensures var reqs := HealthRequests(animalId, HealthInputOf(p), message);
      && (|reqs| == 0 <==> p.status == 0)
      && (|reqs| == 1 ==> reqs[0].category == HealthRisk && SeverityInfoOf(reqs[0].severity).priority == 3 - p.status)
  {
  }

  function AnomalyInputOf(x: Models.AnomalyResult): AnomalyInput
  {
    AnomalyInput(x.isAnomaly, Some(x.severity.Name()))
  }

  /** A detected anomaly raises one alert, CRITICAL for High down to MEDIUM for Low: its sort key is 2 minus the anomaly rank. */
  lemma AnomalyResultAlerts(animalId: string, x: Models.AnomalyResult, message: string)
    ensures var reqs := AnomalyRequests(animalId, AnomalyInputOf(x), message);
      && (|reqs| == 1 <==> x.isAnomaly)
      && (|reqs| == 1 ==> reqs[0].category == Anomaly && SortPriority(reqs[0].severity) == 2 - x.severity.Rank())
  {
  }

  function GaitInputOfPrediction(g: Models.GaitPrediction): GaitInput
  {
    GaitInput(g.needsAttention, false, Some(g.gaitScore), None)
  }

  /** A gait prediction raises an alert exactly when its clamped score reaches 2.5; CRITICAL exactly for a severe (score 4 or more) one. */
  lemma GaitPredictionAlerts(animalId: string, raw: real, message: string)
    ensures var g := Models.GaitPostProcess(raw);
      var reqs := GaitRequests(animalId, GaitInputOfPrediction(g), message);
      && (|reqs| == 1 <==> g.gaitScore >= 2.5)
      && (|reqs| == 1 ==> (reqs[0].severity == Critical <==> g.lamenessLabel == Models.SevereLameness))
  {
  }

  function GaitInputOfAnalysis(a: Vision.GaitAnalysis): GaitInput
  {
    GaitInput(false, a.needsIntervention, None, Some(a.locomotionScore as real))
  }

  /** A vision gait analysis raises an alert exactly when it needs intervention, and the alert's severity follows its urgency: Critical to CRITICAL, Warning to HIGH. */
  lemma GaitAnalysisAlerts(animalId: string, r: Telemetry.Reading, noise: Vision.GaitNoise, now: string, message: string)
    ensures var a := Vision.GaitAssessment(r, noise, now);
      var reqs := GaitRequests(animalId, GaitInputOfAnalysis(a), message);
      && (|reqs| == 1 <==> a.locomotionScore >= 3)
      && (|reqs| == 1 ==> (reqs[0].severity == Critical <==> a.urgency == Vision.UrgencyCritical))
      && (|reqs| == 1 ==> (reqs[0].severity == High <==> a.urgency == Vision.UrgencyWarning))
  {
    Vision.GaitFlagsAgree(r, noise, now);
  }

  function DiseaseInputOf(f: Models.DiseaseForecast): DiseaseInput
  {
    DiseaseInput(Some(f.isHealthy), Some(f.confidence))
  }

  /** A forecast raises an alert exactly when it is not healthy. */
  lemma DiseaseForecastAlerts(animalId: string, f: Models.DiseaseForecast, message: string)
    ensures var reqs := DiseaseRequests(animalId, DiseaseInputOf(f), message);
      && (|reqs| == 1 <==> !f.isHealthy)
      && (|reqs| == 1 ==> reqs[0].category == DiseaseRisk && (reqs[0].severity == Critical <==> f.confidence > 0.75))
  {
  }

  /** A behaviour analysis as the rule sees it; each sub-alert's message stands for its type. */
  function BehaviorInputOf(b: Vision.BehaviorAnalysis): BehaviorInput
  {
    BehaviorInput(b.isAbnormal, Some(b.pattern.Name()), Some(b.healthScore),
      seq(|b.alerts|, i requires 0 <= i < |b.alerts| => SubAlertInput(Some(b.alerts[i].Severity()), Some(b.alerts[i].kind.Type()))))
  }

  /**
   * A behaviour analysis raises at most five alerts; the sub-alerts keep
   * their HIGH/MEDIUM severities; and when the distress sub-alert is raised,
   * the primary alert exists and is a RESPIRATORY one.
   */
  lemma BehaviorAnalysisAlerts(animalId: string, r: Telemetry.Reading, n: Vision.BehaviorNoise, now: string, message: string)
    ensures var b := Vision.BehaviorAssessment(r, n, now);
      var reqs := BehaviorRequests(animalId, BehaviorInputOf(b), message);
      var k := if b.isAbnormal then 1 else 0;
      && |reqs| == k + |b.alerts| <= 5
      && (forall i :: 0 <= i < |b.alerts| ==> reqs[k + i].severity == b.alerts[i].Severity())
      && (Vision.DistressAlert in Vision.Kinds(b.alerts) ==> k == 1 && reqs[0].category == Respiratory)
  {
    var b := Vision.BehaviorAssessment(r, n, now);
    Vision.SubAlertsConsistent(r, n, now);
    BehaviorRequestCount(animalId, BehaviorInputOf(b), message);
  }

  // ---------------------------------------------------------------------
  // Queries over alert lists
  // ---------------------------------------------------------------------

  /** The alerts of `s` still active, in order. */
  function ActiveOnly(s: seq<Alert>): (r: seq<Alert>)
    reads s
    ensures |r| <= |s|
    ensures forall a :: a in r ==> a in s && a.status == Active
    ensures forall a :: a in s && a.status == Active ==> a in r
  {
    if |s| == 0 then []
    else ActiveOnly(s[..|s| - 1]) + (if s[|s| - 1].status == Active then [s[|s| - 1]] else [])
  }

  function WithSeverity(s: seq<Alert>, severity: string): (r: seq<Alert>)
    ensures |r| <= |s|
    ensures forall a :: a in r ==> a in s && a.severity == severity
    ensures forall a :: a in s && a.severity == severity ==> a in r
  {
    if |s| == 0 then []
    else WithSeverity(s[..|s| - 1], severity) + (if s[|s| - 1].severity == severity then [s[|s| - 1]] else [])
  }

  function WithCategory(s: seq<Alert>, category: string): (r: seq<Alert>)
    ensures |r| <= |s|
    ensures forall a :: a in r ==> a in s && a.category == category
    ensures forall a :: a in s && a.category == category ==> a in r
  {
    if |s| == 0 then []
    else WithCategory(s[..|s| - 1], category) + (if s[|s| - 1].category == category then [s[|s| - 1]] else [])
  }

  /** A filter applies only when its value is given and non-empty. */
  predicate Given(v: Option<string>)
  {
    v.Some? && v.value != ""
  }

  function Prio(a: Alert): nat
  {
    SortPriority(a.severity)
  }

  /** The alerts of `s` with sort key `p`, in order. */
  function Bucket(s: seq<Alert>, p: nat): (r: seq<Alert>)
    ensures |r| <= |s|
    ensures forall a :: a in r ==> a in s && Prio(a) == p
    ensures forall a :: a in s && Prio(a) == p ==> a in r
  {
    if |s| == 0 then []
    else Bucket(s[..|s| - 1], p) + (if Prio(s[|s| - 1]) == p then [s[|s| - 1]] else [])
  }

  /** The alerts of `s` with sort key at least `p`, in order. */
  function FromPriority(s: seq<Alert>, p: nat): (r: seq<Alert>)
    ensures forall a :: a in r ==> a in s && p <= Prio(a)
  {
    if |s| == 0 then []
    else FromPriority(s[..|s| - 1], p) + (if Prio(s[|s| - 1]) >= p then [s[|s| - 1]] else [])
  }

  /** The buckets with keys `p` to 4, one after another. */
  function ByPriority(s: seq<Alert>, p: nat): seq<Alert>
    decreases 5 - p
  {
    if p > 4 then [] else Bucket(s, p) + ByPriority(s, p + 1)
  }

  /** `sorted(s, key=priority)`: Python's sort is stable, so it is the buckets in key order. */
  function SortByPriority(s: seq<Alert>): seq<Alert>
  {
    ByPriority(s, 0)
  }

  predicate SortedByPriority(r: seq<Alert>)
  {
    forall i, j :: 0 <= i < j < |r| ==> Prio(r[i]) <= Prio(r[j])
  }

  lemma {:induction false} ByPrioritySorted(s: seq<Alert>, p: nat)
    ensures SortedByPriority(ByPriority(s, p))
    ensures forall a :: a in ByPriority(s, p) ==> p <= Prio(a)
    decreases 5 - p
  {
    if p <= 4 {
      ByPrioritySorted(s, p + 1);
      var b, rest := Bucket(s, p), ByPriority(s, p + 1);
      var r := b + rest;
      assert forall i :: 0 <= i < |b| ==> r[i] == b[i];
      assert forall i :: |b| <= i < |r| ==> r[i] == rest[i - |b|];
    }
  }

  lemma {:induction false} SplitOffBucket(s: seq<Alert>, p: nat)
    ensures multiset(FromPriority(s, p)) == multiset(Bucket(s, p)) + multiset(FromPriority(s, p + 1))
  {
    if |s| > 0 {
      SplitOffBucket(s[..|s| - 1], p);
    }
  }

  lemma {:induction false} FromZero(s: seq<Alert>)
    ensures FromPriority(s, 0) == s
  {
    if |s| > 0 {
      FromZero(s[..|s| - 1]);
    }
  }

  /** No alert has a sort key above 4. */
  lemma {:induction false} BeyondLowest(s: seq<Alert>, p: nat)
    requires p > 4
    ensures FromPriority(s, p) == [] && Bucket(s, p) == []
  {
    if |s| > 0 {
      BeyondLowest(s[..|s| - 1], p);
    }
  }

  lemma {:induction false} ByPriorityPermutes(s: seq<Alert>, p: nat)
    ensures multiset(ByPriority(s, p)) == multiset(FromPriority(s, p))
    decreases 5 - p
  {
    if p > 4 {
      BeyondLowest(s, p);
    } else {
      ByPriorityPermutes(s, p + 1);
      SplitOffBucket(s, p);
    }
  }

  /** Sorting by priority orders the alerts CRITICAL first and only reorders them. */
  lemma SortByPriorityCorrect(s: seq<Alert>)
    ensures SortedByPriority(SortByPriority(s))
    ensures multiset(SortByPriority(s)) == multiset(s)
  {
    ByPrioritySorted(s, 0);
    ByPriorityPermutes(s, 0);
    FromZero(s);
  }

  lemma {:induction false} BucketAppend(a: seq<Alert>, b: seq<Alert>, p: nat)
    ensures Bucket(a + b, p) == Bucket(a, p) + Bucket(b, p)
  {
    if |b| > 0 {
      assert (a + b)[..|a + b| - 1] == a + b[..|b| - 1];
      BucketAppend(a, b[..|b| - 1], p);
    } else {
      assert a + b == a;
    }
  }

  lemma {:induction false} BucketOfBucket(s: seq<Alert>, q: nat, p: nat)
    ensures Bucket(Bucket(s, q), p) == if p == q then Bucket(s, p) else []
  {
    if |s| > 0 {
      var init, last := s[..|s| - 1], s[|s| - 1];
      BucketOfBucket(init, q, p);
      BucketAppend(Bucket(init, q), if Prio(last) == q then [last] else [], p);
    }
  }

  lemma {:induction false} BucketOfByPriority(s: seq<Alert>, q: nat, p: nat)
    ensures Bucket(ByPriority(s, q), p) == if q <= p <= 4 then Bucket(s, p) else []
    decreases 5 - q
  {
    if q <= 4 {
      var here, later := Bucket(s, q), ByPriority(s, q + 1);
      assert ByPriority(s, q) == here + later;
      BucketAppend(here, later, p);
      BucketOfBucket(s, q, p);
      BucketOfByPriority(s, q + 1, p);
      var fromHere, fromLater := Bucket(here, p), Bucket(later, p);
      if p == q {
        assert fromLater == [] && fromHere + [] == fromHere;
      } else {
        assert fromHere == [] && [] + fromLater == fromLater;
      }
    } else {
      assert ByPriority(s, q) == [];
    }
  }

  /** The sort is stable: alerts of one severity keep their insertion order. */
  lemma SortIsStable(s: seq<Alert>, p: nat)
    ensures Bucket(SortByPriority(s), p) == Bucket(s, p)
  {
    BucketOfByPriority(s, 0, p);
    if p > 4 {
      BeyondLowest(s, p);
    }
  }

  /** `s[:limit]`: a negative limit drops that many alerts from the end. */
  function Prefix(s: seq<Alert>, limit: int): (r: seq<Alert>)
    ensures |r| <= |s| && r == s[..|r|]
    ensures limit >= 0 ==> |r| == if limit < |s| then limit else |s|
    ensures limit < 0 ==> |r| == if |s| + limit > 0 then |s| + limit else 0
  {
    if limit >= 0 then (if limit < |s| then s[..limit] else s)
    else (if |s| + limit > 0 then s[..|s| + limit] else [])
  }

  /** Alert `a` of `s` is active and passes the optional severity and category filters. */
  predicate Selected(a: Alert, s: seq<Alert>, severity: Option<string>, category: Option<string>)
    reads a
  {
    a in s && a.status == Active
    && (Given(severity) ==> a.severity == severity.value)
    && (Given(category) ==> a.category == category.value)
  }

  /** The active alerts of `s` passing the optional severity and category filters, in list order. */
  function Matching(s: seq<Alert>, severity: Option<string>, category: Option<string>): (r: seq<Alert>)
    reads s
    ensures forall a :: a in r ==> Selected(a, s, severity, category)
    ensures forall a :: a in s && Selected(a, s, severity, category) ==> a in r
  {
    var active := ActiveOnly(s);
    var bySeverity := if Given(severity) then WithSeverity(active, severity.value) else active;
    if Given(category) then WithCategory(bySeverity, category.value) else bySeverity
  }

  /** Bucketing a prefix gives a prefix of the bucket. */
  lemma BucketOfPrefix(x: seq<Alert>, n: nat, p: nat)
    requires n <= |x|
    ensures Bucket(x[..n], p) <= Bucket(x, p)
  {
    assert x == x[..n] + x[n..];
    BucketAppend(x[..n], x[n..], p);
  }

  /** The sort keeps exactly the alerts it is given. */
  lemma SortKeepsAlerts(m: seq<Alert>)
    ensures |SortByPriority(m)| == |m|
    ensures forall a :: a in SortByPriority(m) <==> a in m
    ensures SortedByPriority(SortByPriority(m))
  {
    var x := SortByPriority(m);
    SortByPriorityCorrect(m);
    assert |multiset(x)| == |multiset(m)|;
    assert forall a :: a in x <==> a in multiset(x);
  }

  /** Nothing after the first `n` alerts of a sorted list is more urgent than any of them. */
  lemma SortedPrefixFirst(x: seq<Alert>, n: nat)
    requires n <= |x| && SortedByPriority(x)
    ensures SortedByPriority(x[..n])
    ensures forall a, b :: a in x[..n] && b in x && b !in x[..n] ==> Prio(a) <= Prio(b)
  {
    var r := x[..n];
    forall a, b | a in r && b in x && b !in r
      ensures Prio(a) <= Prio(b)
    {
      var i :| 0 <= i < n && r[i] == a;
      var j :| 0 <= j < |x| && x[j] == b;
    }
  }

  /**
   * The first `n` alerts of the sorted list are a top-`n`: sorted, each
   * severity's alerts a prefix of that severity's alerts in list order,
   * and no alert left behind more urgent than one taken.
   */
  lemma SortedPrefix(m: seq<Alert>, n: nat)
    requires n <= |m|
    ensures |SortByPriority(m)| == |m|
    ensures var r := SortByPriority(m)[..n];
      && SortedByPriority(r)
      && (forall a :: a in r ==> a in m)
      && (forall p :: Bucket(r, p) <= Bucket(m, p))
      && (forall a, b :: a in r && b in m && b !in r ==> Prio(a) <= Prio(b))
  {
    var x := SortByPriority(m);
    SortKeepsAlerts(m);
    SortedPrefixFirst(x, n);
    var r := x[..n];
    forall p
      ensures Bucket(r, p) <= Bucket(m, p)
    {
      BucketOfPrefix(x, n, p);
      SortIsStable(m, p);
    }
  }

  /**
   * `get_active_alerts` over the list `s`: the first `limit` matching
   * alerts in a stable sort by priority (`alerts[:limit]`, so a negative
   * limit drops alerts from the end).
   */
  function Query(s: seq<Alert>, severity: Option<string>, category: Option<string>, limit: int): (r: seq<Alert>)
    reads s
    ensures forall a :: a in r ==> Selected(a, s, severity, category)
    ensures SortedByPriority(r)
    ensures var m := Matching(s, severity, category);
      && (limit >= 0 ==> |r| == if limit < |m| then limit else |m|)
      && (limit < 0 ==> |r| == if |m| + limit > 0 then |m| + limit else 0)
      && (forall p :: Bucket(r, p) <= Bucket(m, p))
      && (forall a, b :: a in r && b in m && b !in r ==> Prio(a) <= Prio(b))
  {
    var m := Matching(s, severity, category);
    var x := SortByPriority(m);
    SortKeepsAlerts(m);
    SortedPrefix(m, |Prefix(x, limit)|);
    Prefix(x, limit)
  }

  /** Within the limit nothing is lost: the answer holds every matching alert exactly once. */
  lemma QueryComplete(s: seq<Alert>, severity: Option<string>, category: Option<string>, limit: int)
    requires limit >= |Matching(s, severity, category)|
    ensures multiset(Query(s, severity, category, limit)) == multiset(Matching(s, severity, category))
  {
    var m := Matching(s, severity, category);
    SortByPriorityCorrect(m);
    assert |SortByPriority(m)| == |m| by {
      assert |multiset(SortByPriority(m))| == |multiset(m)|;
    }
  }

  function AnimalIds(s: seq<Alert>): set<string>
  {
    set a | a in s :: a.animalId
  }

  function Categories(s: seq<Alert>): set<string>
  {
    set a | a in s :: a.category
  }

  /** No more animals are affected than there are alerts. */
  lemma {:induction false} AnimalIdsBounded(s: seq<Alert>)
    ensures |AnimalIds(s)| <= |s|
  {
    if |s| > 0 {
      var init := s[..|s| - 1];
      AnimalIdsBounded(init);
      assert AnimalIds(s) == AnimalIds(init) + {s[|s| - 1].animalId} by {
        assert forall a :: a in s <==> a in init || a == s[|s| - 1];
      }
    }
  }

  /** Every category present among the alerts has a positive count. */
  lemma CategoriesPresent(s: seq<Alert>)
    ensures forall c :: c in Categories(s) ==> 0 < |WithCategory(s, c)|
  {
    forall c | c in Categories(s)
      ensures 0 < |WithCategory(s, c)|
    {
      var a :| a in s && a.category == c;
      assert a in WithCategory(s, c);
    }
  }

  /** How many alerts of `s` have `severity`. */
  function CountSeverity(s: seq<Alert>, severity: string): nat
  {
    if |s| == 0 then 0
    else CountSeverity(s[..|s| - 1], severity) + (if s[|s| - 1].severity == severity then 1 else 0)
  }

  /** The `by_severity` counts: one entry per known severity. */
  function SeverityCounts(s: seq<Alert>): (r: map<string, nat>)
    ensures r.Keys == {Critical, High, Medium, Low}
    ensures forall severity :: severity in r ==> r[severity] == |WithSeverity(s, severity)| <= |s|
  {
    map[Critical := |WithSeverity(s, Critical)|, High := |WithSeverity(s, High)|,
        Medium := |WithSeverity(s, Medium)|, Low := |WithSeverity(s, Low)|]
  }

  /** The `by_category` counts: one positive entry per category present. */
  function CategoryCounts(s: seq<Alert>): (r: map<string, nat>)
    ensures r.Keys == Categories(s)
    ensures forall c :: c in r ==> 0 < r[c] == |WithCategory(s, c)| <= |s|
  {
    CategoriesPresent(s);
    map c | c in Categories(s) :: |WithCategory(s, c)|
  }

  datatype AlertSummary = AlertSummary(
    totalActive: nat,
    bySeverity: map<string, nat>,
    byCategory: map<string, nat>,
    totalHistorical: nat,
    uniqueAnimalsAffected: nat)

  /** Where the id of an alert `id` first occurs in `s`. */
  function FirstWithId(s: seq<Alert>, id: string): (k: Option<nat>)
    ensures k.Some? ==> k.value < |s| && s[k.value].alertId == id && forall j :: 0 <= j < k.value ==> s[j].alertId != id
    ensures k.None? <==> forall j :: 0 <= j < |s| ==> s[j].alertId != id
  {
    if |s| == 0 then None
    else if s[0].alertId == id then Some(0)
    else match FirstWithId(s[1..], id)
      case None => None
      case Some(k) => Some(k + 1)
  }

  // ---------------------------------------------------------------------
  // The alert system
  // ---------------------------------------------------------------------

  class BiosecurityAlertSystem {
    var activeAlerts: seq<Alert>
    var alertHistory: seq<Alert>
    var alertCounts: map<string, nat>
    /** Where the active list starts within the history, since the last clear. */
    ghost var clearedAt: nat

    /** `alert_counts[severity]`, a counter that starts at 0. */
    function CountOf(severity: string): nat
      reads this
    {
      if severity in alertCounts then alertCounts[severity] else 0
    }

    /** The active list is the part of the history since the last clear, and the counters count it by severity. */
    ghost predicate Valid()
      reads this
    {
      && clearedAt <= |alertHistory|
      && activeAlerts == alertHistory[clearedAt..]
      && forall severity :: CountOf(severity) == CountSeverity(activeAlerts, severity)
    }

    constructor ()
      ensures Valid()
      ensures activeAlerts == [] && alertHistory == [] && alertCounts == map[]
    {
      activeAlerts := [];
      alertHistory := [];
      alertCounts := map[];
      clearedAt := 0;
    }

    /** `generate_alert`: the new alert, active and unacknowledged, goes to the end of both lists and its severity's counter goes up by one. */
    method GenerateAlert(req: AlertRequest, alertId: string, now: string) returns (a: Alert)
      requires Valid()
      modifies this
      ensures Valid() && fresh(a)
      ensures a.alertId == alertId && a.timestamp == now && Realizes(a, req)
      ensures a.categoryLabel == CategoryLabel(req.category) && a.severityInfo == SeverityInfoOf(req.severity)
      ensures a.status == Active && !a.acknowledged
      ensures activeAlerts == old(activeAlerts) + [a] && alertHistory == old(alertHistory) + [a]
    {
      a := new Alert(alertId, now, req);
      assert alertHistory[clearedAt..] + [a] == (alertHistory + [a])[clearedAt..];
      assert (activeAlerts + [a])[..|activeAlerts|] == activeAlerts;
      activeAlerts := activeAlerts + [a];
      alertHistory := alertHistory + [a];
      alertCounts := alertCounts[req.severity := CountOf(req.severity) + 1];
    }

    /**
     * After a rule: the alerts it raised realise its requests in order, are
     * active and unacknowledged, take their ids and times from `idOf` and
     * `nowOf` by history position, and are appended to both lists.
     */
    ghost predicate Raised(oldActive: seq<Alert>, oldHistory: seq<Alert>, alerts: seq<Alert>,
                           reqs: seq<AlertRequest>, idOf: nat -> string, nowOf: nat -> string)
      reads this, alerts
    {
      && Valid()
      && activeAlerts == oldActive + alerts && alertHistory == oldHistory + alerts
      && |alerts| == |reqs|
      && forall i :: 0 <= i < |alerts| ==>
           && Realizes(alerts[i], reqs[i]) && alerts[i].alertId == idOf(|oldHistory| + i)
           && alerts[i].timestamp == nowOf(|oldHistory| + i)
           && alerts[i].status == Active && !alerts[i].acknowledged
    }

    /** Raise the alerts a rule asks for, one after another, each with its own id and time. */
    method RaiseAll(reqs: seq<AlertRequest>, idOf: nat -> string, nowOf: nat -> string) returns (alerts: seq<Alert>)
      requires Valid()
      modifies this
      ensures Raised(old(activeAlerts), old(alertHistory), alerts, reqs, idOf, nowOf)
    {
      alerts := [];
      ghost var start := |alertHistory|;
      var i := 0;
      while i < |reqs|
        invariant 0 <= i <= |reqs| && |alerts| == i
        invariant Valid()
        invariant activeAlerts == old(activeAlerts) + alerts && alertHistory == old(alertHistory) + alerts
        invariant |alertHistory| == start + i
        invariant forall j :: 0 <= j < i ==>
          && Realizes(alerts[j], reqs[j]) && alerts[j].alertId == idOf(start + j)
          && alerts[j].timestamp == nowOf(start + j)
          && alerts[j].status == Active && !alerts[j].acknowledged
      {
        var id := idOf(|alertHistory|);
        var now := nowOf(|alertHistory|);
        assert id == idOf(start + i) && now == nowOf(start + i);
        var a := GenerateAlert(reqs[i], id, now);
        alerts := alerts + [a];
        i := i + 1;
      }
    }

    /** `process_health_prediction` */
    method ProcessHealthPrediction(animalId: string, h: HealthInput, message: string, idOf: nat -> string, nowOf: nat -> string)
      returns (alerts: seq<Alert>)
      requires Valid()
      modifies this
      ensures Raised(old(activeAlerts), old(alertHistory), alerts, HealthRequests(animalId, h, message), idOf, nowOf)
    {
      alerts := RaiseAll(HealthRequests(animalId, h, message), idOf, nowOf);
    }

    /** `process_anomaly_detection` */
    method ProcessAnomalyDetection(animalId: string, x: AnomalyInput, message: string, idOf: nat -> string, nowOf: nat -> string)
      returns (alerts: seq<Alert>)
      requires Valid()
      modifies this
      ensures Raised(old(activeAlerts), old(alertHistory), alerts, AnomalyRequests(animalId, x, message), idOf, nowOf)
    {
      alerts := RaiseAll(AnomalyRequests(animalId, x, message), idOf, nowOf);
    }

    /** `process_gait_analysis` */
    method ProcessGaitAnalysis(animalId: string, g: GaitInput, message: string, idOf: nat -> string, nowOf: nat -> string)
      returns (alerts: seq<Alert>)
      requires Valid()
      modifies this
      ensures Raised(old(activeAlerts), old(alertHistory), alerts, GaitRequests(animalId, g, message), idOf, nowOf)
    {
      alerts := RaiseAll(GaitRequests(animalId, g, message), idOf, nowOf);
    }

    /** `process_disease_forecast` */
    method ProcessDiseaseForecast(animalId: string, d: DiseaseInput, message: string, idOf: nat -> string, nowOf: nat -> string)
      returns (alerts: seq<Alert>)
      requires Valid()
      modifies this
      ensures Raised(old(activeAlerts), old(alertHistory), alerts, DiseaseRequests(animalId, d, message), idOf, nowOf)
    {
      alerts := RaiseAll(DiseaseRequests(animalId, d, message), idOf, nowOf);
    }

    /** `process_behavior_analysis`: the primary alert, then the sub-alerts one by one. */
    method ProcessBehaviorAnalysis(animalId: string, b: BehaviorInput, message: string, idOf: nat -> string, nowOf: nat -> string)
      returns (alerts: seq<Alert>)
      requires Valid()
      modifies this
      ensures Raised(old(activeAlerts), old(alertHistory), alerts, BehaviorRequests(animalId, b, message), idOf, nowOf)
    {
      alerts := RaiseAll(BehaviorRequests(animalId, b, message), idOf, nowOf);
    }

    /** `get_active_alerts`: the first `limit` active alerts passing the filters, most urgent first, equal priorities in insertion order. */
    function GetActiveAlerts(severity: Option<string>, category: Option<string>, limit: int): (r: seq<Alert>)
      reads this, activeAlerts
      ensures forall a :: a in r ==> Selected(a, activeAlerts, severity, category)
      ensures SortedByPriority(r)
      ensures var m := Matching(activeAlerts, severity, category);
        && (limit >= 0 ==> |r| == if limit < |m| then limit else |m|)
        && (limit < 0 ==> |r| == if |m| + limit > 0 then |m| + limit else 0)
        && (forall p :: Bucket(r, p) <= Bucket(m, p))
        && (forall a, b :: a in r && b in m && b !in r ==> Prio(a) <= Prio(b))
    {
      Query(activeAlerts, severity, category, limit)
    }

    /** `get_alert_summary`: counts over the alerts of the active list whose status is ACTIVE. */
    function GetAlertSummary(): (r: AlertSummary)
      reads this, activeAlerts
      ensures r.totalActive == |ActiveOnly(activeAlerts)| && r.totalHistorical == |alertHistory|
      ensures r.uniqueAnimalsAffected == |AnimalIds(ActiveOnly(activeAlerts))| <= r.totalActive
      ensures r.bySeverity.Keys == {Critical, High, Medium, Low}
      ensures forall severity :: severity in r.bySeverity ==>
        r.bySeverity[severity] == |WithSeverity(ActiveOnly(activeAlerts), severity)| <= r.totalActive
      ensures r.byCategory.Keys == Categories(ActiveOnly(activeAlerts))
      ensures forall c :: c in r.byCategory ==>
        0 < r.byCategory[c] == |WithCategory(ActiveOnly(activeAlerts), c)| <= r.totalActive
    {
      var active := ActiveOnly(activeAlerts);
      AnimalIdsBounded(active);
      AlertSummary(|active|, SeverityCounts(active), CategoryCounts(active), |alertHistory|, |AnimalIds(active)|)
    }

    /** `acknowledge_alert`: marks the first active-list alert with that id; true exactly when there is one. */
    method AcknowledgeAlert(alertId: string, now: string) returns (found: bool)
      requires Valid()
      modifies activeAlerts
      ensures Valid()
      ensures found <==> FirstWithId(activeAlerts, alertId).Some?
      ensures found ==> var a := activeAlerts[FirstWithId(activeAlerts, alertId).value];
        && a.acknowledged && a.acknowledgedAt == Some(now)
        && a.status == old(a.status) && a.resolvedAt == old(a.resolvedAt) && a.resolutionNote == old(a.resolutionNote)
      ensures forall a :: a in activeAlerts && (!found || a != activeAlerts[FirstWithId(activeAlerts, alertId).value]) ==> unchanged(a)
    {
      var i := 0;
      while i < |activeAlerts|
        invariant 0 <= i <= |activeAlerts|
        invariant forall j :: 0 <= j < i ==> activeAlerts[j].alertId != alertId
        invariant forall a :: a in activeAlerts ==> unchanged(a)
      {
        if activeAlerts[i].alertId == alertId {
          activeAlerts[i].acknowledged := true;
          activeAlerts[i].acknowledgedAt := Some(now);
          return true;
        }
        i := i + 1;
      }
      return false;
    }

    /** `resolve_alert`: closes the first active-list alert with that id, which then leaves every query; true exactly when there is one. */
    method ResolveAlert(alertId: string, note: string, now: string) returns (found: bool)
      requires Valid()
      modifies activeAlerts
      ensures Valid()
      ensures found <==> FirstWithId(activeAlerts, alertId).Some?
      ensures found ==> var a := activeAlerts[FirstWithId(activeAlerts, alertId).value];
        && a.status == Resolved && a.resolvedAt == Some(now) && a.resolutionNote == Some(note)
        && a.acknowledged == old(a.acknowledged) && a.acknowledgedAt == old(a.acknowledgedAt)
        && a !in ActiveOnly(activeAlerts)
        && forall severity, category, limit :: a !in GetActiveAlerts(severity, category, limit)
      ensures forall a :: a in activeAlerts && (!found || a != activeAlerts[FirstWithId(activeAlerts, alertId).value]) ==> unchanged(a)
    {
      var i := 0;
      while i < |activeAlerts|
        invariant 0 <= i <= |activeAlerts|
        invariant forall j :: 0 <= j < i ==> activeAlerts[j].alertId != alertId
        invariant forall a :: a in activeAlerts ==> unchanged(a)
      {
        if activeAlerts[i].alertId == alertId {
          activeAlerts[i].status := Resolved;
          activeAlerts[i].resolvedAt := Some(now);
          activeAlerts[i].resolutionNote := Some(note);
          return true;
        }
        i := i + 1;
      }
      return false;
    }

    /** `clear_all_alerts`: empties the active list and the counters; the history stays. */
    method ClearAllAlerts()
      requires Valid()
      modifies this
      ensures Valid()
      ensures activeAlerts == [] && alertCounts == map[] && alertHistory == old(alertHistory)
      ensures GetAlertSummary().totalActive == 0 && GetAlertSummary().totalHistorical == old(|alertHistory|)
    {
      activeAlerts := [];
      alertCounts := map[];
      clearedAt := |alertHistory|;
    }
  }
}
