# Livestock biosecurity pipeline — a Dafny model

This project models the decision logic of a livestock biosecurity pipeline. The model covers the following pieces, one Dafny module each:

- **Synthetic data generator** (`DataGenerator`, data_generator.dfy). It produces sensor readings for healthy and diseased animals. A diseased reading blends healthy values toward per-disease ranges. Each animal gets an illness episode that escalates from mild toward a chosen severity over several days. The generator also makes real-time readings for a given or random animal id.
- **Post-processing of the four learned models** (`Models`, models.dfy):
  - the health classifier;
  - the isolation-forest anomaly detector, trained on healthy rows only;
  - the gait regressor;
  - the disease forecaster.

  The learned estimators are oracles: their raw outputs come in as parameters. The model covers what the code does around them:
  - engineered features;
  - checks for missing features and for an untrained model;
  - severity cut points, clamping and label bands;
  - probability maps;
  - detector metrics.
- **Vision analyzers** (`Vision`, cv_module.dfy). The gait analyzer turns a reading into five component scores, then a weighted composite, a 1–5 locomotion score and urgency. The behaviour analyzer derives four metrics, a behaviour pattern, a health score and threshold sub-alerts. Both keep a history and make herd summaries.
- **Biosecurity alert system** (`Alerts`, alert_system.dfy, with the severity and category tables in `Taxonomy`, severity.dfy). Each model or analyzer output becomes zero or more alerts under fixed rules. The system keeps three things:
  - the active list, the history and per-severity counters;
  - active-alert queries: filter by severity and category, stable sort by priority, then a Python-style limit slice;
  - a summary, acknowledge, resolve and clear.
- **Document indexer's chunker** (`Ingestion`, chunker.dfy):
  - sentence splitting at whitespace after `.`, `!` or `?`;
  - greedy packing of sentences into size-bounded chunks, with an overlap taken from the end of the previous chunk;
  - per-chunk metadata.

Shared pieces:

- `Telemetry` (telemetry.dfy): the reading type, the feature lists and the temperature-humidity index.
- `Numerics` (numerics.dfy): NumPy-style helpers over `real`.
- `Wrappers` (wrappers.dfy): `Option` and `Result`.

Randomness is passed in as oracle values. A uniform draw is a position `u` in its range; a Gaussian draw is a value; `randint` takes a natural `k`, reduced modulo the width of the range.

Stateful parts are classes with the fields the source mutates:

- `BiosecurityAlertSystem` and `Alert`;
- the analyzers, with their histories;
- the predictors, with their trained flags;
- `SemanticChunker` and `DocumentIndexer`.

Each method is proved against a specification function. The properties are proved about those functions. Examples:

- the sort returns a stable, sorted permutation;
- chunks rebuild the sentence list exactly once their overlaps are removed;
- animal ids survive a print/parse round trip;
- escalation is monotone in severity.

## Model

| member | source | states |
|---|---|---|
| Taxonomy.SeverityInfoOf | KrishiSakhiAI/livestock_biosecurity/alert_system.py:19-24 | every severity maps to a priority in 1..4; a severity the table does not know falls back to the LOW row |
| Taxonomy.SortPriority | KrishiSakhiAI/livestock_biosecurity/alert_system.py:250-252 | the active-alert sort key is at most 4, and it is 4 exactly for severities the table does not know |
| Taxonomy.SortKeyFollowsTable | KrishiSakhiAI/livestock_biosecurity/alert_system.py:19-24 | for the four known severities the sort key plus one is the table's priority, so the query orders alerts by the table's priority |
| Alerts.Alert.constructor | KrishiSakhiAI/livestock_biosecurity/alert_system.py:57-70 | a new alert carries the request's animal, category, severity, message and source, its category label and severity info; it starts ACTIVE and unacknowledged, with no acknowledgement, resolution or note |
| Alerts.HealthRequests | KrishiSakhiAI/livestock_biosecurity/alert_system.py:78-108 | a health result asks for at most one alert |
| Alerts.HealthPredictionAlerts | KrishiSakhiAI/livestock_biosecurity/alert_system.py:82-108 | a prediction with status 0 raises nothing; status 1 or 2 raises one HEALTH_RISK alert whose priority is 3 minus the status (HIGH, CRITICAL) |
| Alerts.AnomalyAlertSeverity | KrishiSakhiAI/livestock_biosecurity/alert_system.py:115-121 | the anomaly level maps to a known severity that is never LOW; unknown levels give MEDIUM |
| Alerts.AnomalyRequests | KrishiSakhiAI/livestock_biosecurity/alert_system.py:110-130 | an anomaly result asks for at most one alert |
| Alerts.AnomalyResultAlerts | KrishiSakhiAI/livestock_biosecurity/alert_system.py:110-130 | a detector result raises an ANOMALY alert if and only if it is anomalous, and its sort key is 2 minus the anomaly severity's rank (High gives CRITICAL … Low gives MEDIUM) |
| Alerts.GaitAlertSeverity | KrishiSakhiAI/livestock_biosecurity/alert_system.py:140-145 | a gait score maps to a known severity that is never LOW |
| Alerts.GaitRequests | KrishiSakhiAI/livestock_biosecurity/alert_system.py:132-159 | a gait result asks for at most one alert |
| Alerts.GaitEscalation | KrishiSakhiAI/livestock_biosecurity/alert_system.py:140-145 | a higher gait score never yields a less urgent severity |
| Alerts.GaitPredictionAlerts | KrishiSakhiAI/livestock_biosecurity/alert_system.py:132-159 | a gait prediction raises an alert if and only if its clamped score is at least 2.5; the alert is CRITICAL if and only if the label is Severe Lameness |
| Alerts.GaitAnalysisAlerts | KrishiSakhiAI/livestock_biosecurity/alert_system.py:132-159 | a vision gait analysis raises an alert if and only if its locomotion score is at least 3; the alert is CRITICAL if and only if urgency is Critical, and HIGH if and only if urgency is Warning |
| Alerts.DiseaseAlertSeverity | KrishiSakhiAI/livestock_biosecurity/alert_system.py:169-174 | a forecast confidence maps to a known severity that is never LOW |
| Alerts.DiseaseRequests | KrishiSakhiAI/livestock_biosecurity/alert_system.py:161-193 | a forecast asks for at most one alert |
| Alerts.DiseaseEscalation | KrishiSakhiAI/livestock_biosecurity/alert_system.py:169-174 | a higher confidence never yields a less urgent severity |
| Alerts.DiseaseForecastAlerts | KrishiSakhiAI/livestock_biosecurity/alert_system.py:161-193 | a forecast raises a DISEASE_RISK alert if and only if it is not healthy; the alert is CRITICAL if and only if confidence is above 0.75 |
| Alerts.BehaviorAlertSeverity | KrishiSakhiAI/livestock_biosecurity/alert_system.py:203-208 | a behaviour health score maps to a known severity that is never LOW |
| Alerts.BehaviorEscalation | KrishiSakhiAI/livestock_biosecurity/alert_system.py:203-208 | a lower health score never yields a less urgent severity |
| Alerts.BehaviorPrimary | KrishiSakhiAI/livestock_biosecurity/alert_system.py:199-225 | the primary behaviour alert exists if and only if the result is abnormal |
| Alerts.BehaviorRequestCount | KrishiSakhiAI/livestock_biosecurity/alert_system.py:195-239 | a behaviour result asks for one alert when abnormal plus one per sub-alert; each sub-alert becomes a BIOSECURITY alert with its own severity (MEDIUM when absent); the primary alert is never BIOSECURITY |
| Alerts.BehaviorAnalysisAlerts | KrishiSakhiAI/livestock_biosecurity/alert_system.py:195-239 | a behaviour analysis raises at most five alerts; the sub-alert alerts keep the analyzer's severities; a distress sub-alert comes with a primary RESPIRATORY alert |
| Alerts.ActiveOnly | KrishiSakhiAI/livestock_biosecurity/alert_system.py:243 | keeps exactly the alerts of the list that are ACTIVE |
| Alerts.WithSeverity | KrishiSakhiAI/livestock_biosecurity/alert_system.py:244-245 | keeps exactly the alerts with the given severity |
| Alerts.WithCategory | KrishiSakhiAI/livestock_biosecurity/alert_system.py:246-248 | keeps exactly the alerts with the given category |
| Alerts.Bucket | KrishiSakhiAI/livestock_biosecurity/alert_system.py:250-252 | keeps exactly the alerts with the given sort key |
| Alerts.FromPriority | KrishiSakhiAI/livestock_biosecurity/alert_system.py:250-252 | keeps only alerts whose sort key is at least the given one |
| Alerts.ByPrioritySorted | KrishiSakhiAI/livestock_biosecurity/alert_system.py:250-252 | the bucket-by-bucket sort output is ordered by sort key and holds only keys from the starting key up |
| Alerts.SplitOffBucket | KrishiSakhiAI/livestock_biosecurity/alert_system.py:250-252 | the alerts from key p on are, as a multiset, bucket p plus those from key p+1 on |
| Alerts.FromZero | KrishiSakhiAI/livestock_biosecurity/alert_system.py:250-252 | every alert has a sort key of at least 0 |
| Alerts.BeyondLowest | KrishiSakhiAI/livestock_biosecurity/alert_system.py:250-252 | no alert has a sort key beyond 4 |
| Alerts.ByPriorityPermutes | KrishiSakhiAI/livestock_biosecurity/alert_system.py:250-252 | the bucket sort from key p on permutes the alerts whose key is at least p |
| Alerts.SortByPriorityCorrect | KrishiSakhiAI/livestock_biosecurity/alert_system.py:250-252 | the priority sort is ordered by sort key and is a permutation of its input |
| Alerts.BucketAppend | KrishiSakhiAI/livestock_biosecurity/alert_system.py:250-252 | taking a bucket distributes over concatenation |
| Alerts.BucketOfBucket | KrishiSakhiAI/livestock_biosecurity/alert_system.py:250-252 | bucket p of bucket q is bucket p when p = q and empty otherwise |
| Alerts.BucketOfByPriority | KrishiSakhiAI/livestock_biosecurity/alert_system.py:250-252 | bucket p of the sort from key q on is bucket p of the input when q ≤ p ≤ 4, else empty |
| Alerts.SortIsStable | KrishiSakhiAI/livestock_biosecurity/alert_system.py:250-252 | the sort is stable: equal-key alerts keep their relative order |
| Alerts.Prefix | KrishiSakhiAI/livestock_biosecurity/alert_system.py:254 | `list[:limit]` is a prefix of the list; its length is min(limit, n) for non-negative limits and max(n + limit, 0) for negative ones |
| Alerts.Matching | KrishiSakhiAI/livestock_biosecurity/alert_system.py:243-248 | keeps exactly the active alerts that pass the optional severity and category filters |
| Alerts.SortKeepsAlerts | KrishiSakhiAI/livestock_biosecurity/alert_system.py:250-252 | the sort returns as many alerts as it is given, exactly those alerts, in priority order |
| Alerts.BucketOfPrefix | KrishiSakhiAI/livestock_biosecurity/alert_system.py:254 | the alerts of one priority among the first `n` are a prefix of that priority's alerts in the whole list |
| Alerts.SortedPrefixFirst | KrishiSakhiAI/livestock_biosecurity/alert_system.py:254 | the first `n` alerts of a sorted list are sorted, and no alert after them is more urgent than one of them |
| Alerts.SortedPrefix | KrishiSakhiAI/livestock_biosecurity/alert_system.py:250-254 | the first `n` alerts of the sort are a top-`n` of the input: sorted, drawn from the input, each priority's alerts a prefix of that priority's input alerts in insertion order, and none left out more urgent than one taken |
| Alerts.Query | KrishiSakhiAI/livestock_biosecurity/alert_system.py:241-254 | the result is the first `limit` matches of a stable priority sort: every returned alert is active and passes the filters; it is ordered by priority; its length is `min(limit, matches)` (for a negative limit, the matches less `-limit`, at least 0); each priority's returned alerts are a prefix of that priority's matches in insertion order; no match left out is more urgent than a returned alert |
| Alerts.QueryComplete | KrishiSakhiAI/livestock_biosecurity/alert_system.py:241-254 | when the limit covers all matches, the query returns every matching alert exactly once |
| Alerts.AnimalIdsBounded | KrishiSakhiAI/livestock_biosecurity/alert_system.py:273 | there are no more distinct affected animals than alerts |
| Alerts.CategoriesPresent | KrishiSakhiAI/livestock_biosecurity/alert_system.py:268-271 | every category listed in the summary has at least one alert |
| Alerts.FirstWithId | KrishiSakhiAI/livestock_biosecurity/alert_system.py:278-279 | finds the first alert of the list with the given id, or reports that none has it |
| Alerts.BiosecurityAlertSystem.constructor | KrishiSakhiAI/livestock_biosecurity/alert_system.py:37-40 | the system starts with empty active list, history and counters |
| Alerts.BiosecurityAlertSystem.GenerateAlert | KrishiSakhiAI/livestock_biosecurity/alert_system.py:42-76 | the new alert is active and unacknowledged and carries the request and id; it is appended to both the active list and the history; the severity counters still count the active list |
| Alerts.BiosecurityAlertSystem.RaiseAll | KrishiSakhiAI/livestock_biosecurity/alert_system.py:42-76 | raising a rule's requests appends, in order, one ACTIVE, unacknowledged alert per request, with its id and time drawn by history position, to both lists, and keeps the counters |
| Alerts.BiosecurityAlertSystem.ProcessHealthPrediction | KrishiSakhiAI/livestock_biosecurity/alert_system.py:78-108 | exactly the alerts the health rule asks for are raised, ACTIVE and unacknowledged, and appended |
| Alerts.BiosecurityAlertSystem.ProcessAnomalyDetection | KrishiSakhiAI/livestock_biosecurity/alert_system.py:110-130 | exactly the alerts the anomaly rule asks for are raised, ACTIVE and unacknowledged, and appended |
| Alerts.BiosecurityAlertSystem.ProcessGaitAnalysis | KrishiSakhiAI/livestock_biosecurity/alert_system.py:132-159 | exactly the alerts the gait rule asks for are raised, ACTIVE and unacknowledged, and appended |
| Alerts.BiosecurityAlertSystem.ProcessDiseaseForecast | KrishiSakhiAI/livestock_biosecurity/alert_system.py:161-193 | exactly the alerts the forecast rule asks for are raised, ACTIVE and unacknowledged, and appended |
| Alerts.BiosecurityAlertSystem.ProcessBehaviorAnalysis | KrishiSakhiAI/livestock_biosecurity/alert_system.py:195-239 | exactly the alerts the behaviour rule asks for (primary, then sub-alerts) are raised, ACTIVE and unacknowledged, and appended |
| Alerts.BiosecurityAlertSystem.GetActiveAlerts | KrishiSakhiAI/livestock_biosecurity/alert_system.py:241-254 | returns the first `limit` active alerts of the active list that pass the severity and category filters, in a stable sort by priority: each returned alert is selected, the result is sorted, its length is `min(limit, matches)`, each priority keeps insertion order, and no match left out is more urgent than a returned one |
| Alerts.BiosecurityAlertSystem.GetAlertSummary | KrishiSakhiAI/livestock_biosecurity/alert_system.py:256-274 | the summary counts the active and historical alerts; each known severity's entry is the number of active alerts with that severity; each present category's entry is its number of active alerts (at least 1); the affected animals are the distinct animal ids of the active alerts, no more than the alerts |
| Alerts.BiosecurityAlertSystem.AcknowledgeAlert | KrishiSakhiAI/livestock_biosecurity/alert_system.py:276-283 | reports success if and only if an alert of the active list (whatever its status) has the id; the first such alert becomes acknowledged with the time, and nothing else changes |
| Alerts.BiosecurityAlertSystem.ResolveAlert | KrishiSakhiAI/livestock_biosecurity/alert_system.py:285-293 | reports success if and only if an alert of the active list (whatever its status) has the id; the first such alert becomes RESOLVED with time and note, and no longer appears in any active-alert query; nothing else changes |
| Alerts.BiosecurityAlertSystem.ClearAllAlerts | KrishiSakhiAI/livestock_biosecurity/alert_system.py:295-298 | the active list and counters become empty while the history is kept |
| Telemetry.GetOr | livestock_biosecurity/models.py:206 | `reading.get(field, default)` gives the field's value when present and the default otherwise |
| Telemetry.EveryFieldIsAFeature | livestock_biosecurity/models.py:41-42 | the full feature list names every field of a reading |
| Telemetry.ThiBounds | KrishiSakhiAI/livestock_biosecurity/data_generator.py:234-240 | for generated temperatures in [22, 40] and humidities in [40, 90], the index lies in [67.04, 101.44] |
| Telemetry.ThiMonotoneInTemperature | KrishiSakhiAI/livestock_biosecurity/data_generator.py:237-240 | the index grows with the ambient temperature |
| Models.MissingFields | livestock_biosecurity/models.py:72 | lists exactly the required features the reading lacks |
| Models.FeatureVector | livestock_biosecurity/models.py:206 | one value per feature, in order, missing fields read as 0 |
| Models.FloatDiv | livestock_biosecurity/models.py:76-80 | division fails if and only if the divisor is zero, and otherwise undoes multiplication |
| Models.EngineerFeatures | livestock_biosecurity/models.py:70-82 | fails with the list of missing features if and only if the reading is incomplete; otherwise gives the base features in order and each engineered feature as its defining ratio or product |
| Models.EngineeredRatiosFinite | livestock_biosecurity/models.py:76-80 | on a complete, non-negative reading, all ratios are defined (their divisors are at least 1) and non-negative |
| Models.RatiosFiniteUnlessMinusOne | livestock_biosecurity/models.py:76-80 | on a complete reading the three ratios are all defined if and only if none of rumination, water intake and activity is -1 |
| Models.HealthLabel | livestock_biosecurity/models.py:44 | a status has a label if and only if it is 0, 1 or 2 |
| Models.HealthNamesMatchLabels | livestock_biosecurity/models.py:44 | the label list is indexed by status and holds no duplicates |
| Models.HealthPredictor.constructor | livestock_biosecurity/models.py:53-68 | a new predictor is untrained |
| Models.HealthPredictor.Train | livestock_biosecurity/models.py:84-109 | training marks the predictor trained |
| Models.HealthPredictor.Predict | livestock_biosecurity/models.py:111-131 | fails when untrained, when a feature is missing, or when a reading of -1 makes a ratio infinite and the scaler refuses it; otherwise returns the classifier's status and its label; the confidence is the largest probability; each label maps to its probability |
| Models.AnomalySeverityByReportedScore | livestock_biosecurity/models.py:213-215 | severity is High if and only if the reported score is above 0.3, Medium if and only if it is in (0.1, 0.3], and Low otherwise; a higher reported score never gives a lower severity |
| Models.HealthyRows | livestock_biosecurity/models.py:167 | keeps exactly the rows labelled healthy |
| Models.CountPairs | livestock_biosecurity/models.py:178-195 | a confusion-matrix cell counts no more rows than there are |
| Models.CountDetected | livestock_biosecurity/models.py:178-195 | the number of detections is at most the number of rows |
| Models.EvaluateDetector | livestock_biosecurity/models.py:178-195 | precision, recall and F1 lie in [0, 1], and detected anomalies are at most the total records |
| Models.UnitRatio | livestock_biosecurity/models.py:178-195 | a zero-guarded ratio of a part to its whole lies in [0, 1] |
| Models.HarmonicMeanBounded | livestock_biosecurity/models.py:178-195 | F1 of a precision and a recall in [0, 1] lies in [0, 1] |
| Models.AnomalyDetector.constructor | livestock_biosecurity/models.py:153-163 | a new detector keeps its contamination rate and is untrained, with no fit rows and no metrics |
| Models.AnomalyDetector.Train | livestock_biosecurity/models.py:165-199 | without a healthy row the fit fails and nothing changes; otherwise training fits on the healthy rows only, becomes trained, and records and returns the detector's metrics against the anomaly labels |
| Models.AnomalyDetector.Predict | livestock_biosecurity/models.py:201-216 | fails if and only if untrained; otherwise anomalous if and only if the detector says -1; the reported score is the negated decision score and the severity follows the cut points |
| Models.GaitPostProcess | livestock_biosecurity/models.py:270-284 | the score is clamped to [1, 5]; needs attention if and only if the score is at least 2.5; the label follows the bands |
| Models.LamenessBandsOrdered | livestock_biosecurity/models.py:272-284 | the bands are monotone in the score; needing attention implies a lameness label; Moderate or Severe implies needing attention |
| Models.GaitPredictor.constructor | livestock_biosecurity/models.py:225-234 | a new gait predictor is untrained |
| Models.GaitPredictor.Train | livestock_biosecurity/models.py:236-261 | training marks it trained |
| Models.GaitPredictor.Predict | livestock_biosecurity/models.py:263-285 | fails if and only if untrained; otherwise returns the post-processed regressor output |
| Models.ProbabilityMap | livestock_biosecurity/models.py:127-130 | maps each class named by the probabilities to its probability, the last occurrence winning |
| Models.DiseaseForecaster.constructor | livestock_biosecurity/models.py:294-304 | a new forecaster is untrained and knows no classes |
| Models.DiseaseForecaster.Train | livestock_biosecurity/models.py:306-331 | training marks it trained and records the label encoder's classes |
| Models.DiseaseForecaster.Predict | livestock_biosecurity/models.py:333-355 | fails when untrained or when the class index is out of range; otherwise names the predicted disease, healthy if and only if the disease is "None"; the confidence is the largest probability, with a map of per-disease probabilities |
| Vision.GaitComponentsOf | livestock_biosecurity/cv_module.py:52-64 | the five gait components each lie in [0, 1] |
| Vision.WeightedComposite | livestock_biosecurity/cv_module.py:67-73 | the weighted composite of unit components lies in [0, 1] |
| Vision.NoisyComposite | livestock_biosecurity/cv_module.py:76-77 | the noisy composite is clipped to [0, 1] |
| Vision.LocomotionBandCuts | livestock_biosecurity/cv_module.py:80-89 | locomotion score 1 if and only if the composite is above 0.85; at most 2 if and only if above 0.70; at most 3 if and only if above 0.50; at most 4 if and only if above 0.30 |
| Vision.LocomotionBandMonotone | livestock_biosecurity/cv_module.py:80-89 | a higher composite never gives a worse locomotion score |
| Vision.GaitAssessment | livestock_biosecurity/cv_module.py:39-118 | composite in [0, 100], locomotion score from the bands, components in [0, 100], stride regularity equal to the composite, weight distribution in [0, 100], non-negative head bob, walking speed of at least 0.2 |
| Vision.GaitFlagsAgree | livestock_biosecurity/cv_module.py:102-118 | needs intervention if and only if the score is at least 3; urgency is Critical if and only if at least 4, Warning if and only if 3, Normal if and only if no intervention; name and description come from the score table |
| Vision.GaitScoreFollowsComponents | livestock_biosecurity/cv_module.py:52-89 | an animal better on every component never gets a worse locomotion score |
| Vision.DefaultReadingWalksNormally | livestock_biosecurity/cv_module.py:52-89 | a reading with every field missing uses the defaults, which walk normally (score 1, no intervention) |
| Vision.CountScore | livestock_biosecurity/cv_module.py:127-129 | a score's count is at most the herd size |
| Vision.ScoreCountsCoverHerd | livestock_biosecurity/cv_module.py:127-129 | the five score counts add up to the herd size |
| Vision.ScoreValues | livestock_biosecurity/cv_module.py:123-140 | each animal's locomotion score, in [1, 5] |
| Vision.SummarizeGait | livestock_biosecurity/cv_module.py:123-140 | the histogram counts each score 1–5 and sums to the herd size; the critical count is scores 4 and 5; the percentages lie in [0, 100] and add up to at most 100; the average lies in [1, 5] for a non-empty herd and is absent otherwise |
| Vision.GaitAnalyzer.constructor | livestock_biosecurity/cv_module.py:36-37 | a new analyzer has an empty history |
| Vision.GaitAnalyzer.AnalyzeGait | livestock_biosecurity/cv_module.py:39-121 | returns the gait assessment of the reading and appends it to the history |
| Vision.GaitAnalyzer.GetHerdGaitSummary | livestock_biosecurity/cv_module.py:123-140 | analyzes every animal in order, appends all results to the history, and the histogram counts them by score |
| Vision.BehaviorMetricsOf | livestock_biosecurity/cv_module.py:194-210 | the four behaviour metrics lie in their clipped ranges |
| Vision.PatternDecisionOrder | livestock_biosecurity/cv_module.py:213-220 | each pattern holds exactly under its condition in the fixed decision order: distress, then isolation, then lethargy, else normal |
| Vision.BehaviorHealth | livestock_biosecurity/cv_module.py:223-229 | the behaviour health score lies in [0, 100] |
| Vision.RaisedAmong | livestock_biosecurity/cv_module.py:246-269 | raises no more sub-alerts than there are kinds checked |
| Vision.RaisedAmongExact | livestock_biosecurity/cv_module.py:246-269 | a kind is raised if and only if its threshold is crossed, in check order |
| Vision.SubAlertsOf | livestock_biosecurity/cv_module.py:246-269 | at most four sub-alerts |
| Vision.Kinds | livestock_biosecurity/cv_module.py:246-269 | one kind per sub-alert |
| Vision.BehaviorAssessment | livestock_biosecurity/cv_module.py:184-270 | metrics in range, health in [0, 100], abnormal if and only if the pattern is not normal, at most four sub-alerts |
| Vision.SubAlertsConsistent | livestock_biosecurity/cv_module.py:241-269 | a sub-alert kind appears if and only if its threshold is crossed; each reports its metric; they come in check order; a distress sub-alert implies the distress pattern; an isolation sub-alert implies abnormal |
| Vision.CountPattern | livestock_biosecurity/cv_module.py:278-281 | a pattern's count is at most the herd size |
| Vision.CountAbnormal | livestock_biosecurity/cv_module.py:241 | the abnormal count is at most the herd size |
| Vision.NormalAndAbnormalCoverHerd | livestock_biosecurity/cv_module.py:278-292 | normal and abnormal animals together are the whole herd |
| Vision.CountHighAlerts | livestock_biosecurity/cv_module.py:295 | the HIGH sub-alert count is at most the number of sub-alerts |
| Vision.CountHighAlertsAppend | livestock_biosecurity/cv_module.py:284-295 | HIGH counts add over concatenation |
| Vision.HealthScores | livestock_biosecurity/cv_module.py:293 | one health score per animal |
| Vision.CountPatterns | livestock_biosecurity/cv_module.py:278-281 | the pattern histogram holds exactly the patterns that occur, each with its count |
| Vision.CollectSubAlerts | livestock_biosecurity/cv_module.py:284-286 | collects every animal's sub-alerts, in order |
| Vision.CountHigh | livestock_biosecurity/cv_module.py:295 | counts the HIGH sub-alerts |
| Vision.SummarizeBehavior | livestock_biosecurity/cv_module.py:274-297 | the herd summary has the herd size, the pattern histogram, the abnormal count (equal to the abnormal animals), the normal percentage in [0, 100], the total and HIGH sub-alert counts, and the average health in [0, 100], absent if and only if the herd is empty |
| Vision.BehaviorAnalyzer.constructor | livestock_biosecurity/cv_module.py:181-182 | a new analyzer has an empty history |
| Vision.BehaviorAnalyzer.AnalyzeBehavior | livestock_biosecurity/cv_module.py:184-272 | returns the behaviour assessment and appends it to the history |
| Vision.BehaviorAnalyzer.AnalyzeHerdBehavior | livestock_biosecurity/cv_module.py:274-297 | analyzes every animal in order, appends the results to the history, and counts the abnormal ones |
| Numerics.Clip | livestock_biosecurity/models.py:270 | `numpy.clip` stays within the bounds, is the identity inside them and saturates outside |
| Numerics.Max | livestock_biosecurity/models.py:126 | the maximum is an element and bounds every element |
| Numerics.RandInt | KrishiSakhiAI/livestock_biosecurity/data_generator.py:109 | `randint(lo, hi)` lies in [lo, hi) |
| Numerics.RandIntReachesAll | KrishiSakhiAI/livestock_biosecurity/data_generator.py:109 | every value of [lo, hi) is reachable |
| Numerics.MeanWithin | livestock_biosecurity/cv_module.py:138 | the mean of values in [lo, hi] lies in [lo, hi] |
| Numerics.Percent | livestock_biosecurity/cv_module.py:135-136 | a count out of a total as a percentage lies in [0, 100], is 0 for an empty total and 100 for the whole |
| Numerics.PercentsAddUp | livestock_biosecurity/cv_module.py:135-136 | percentages of disjoint parts add up to at most 100 |
| DataGenerator.SampleRange | KrishiSakhiAI/livestock_biosecurity/data_generator.py:96-100 | a sample from [low, high] lies in [0.8·low, 1.2·high] |
| DataGenerator.SampleRangeNoiseless | KrishiSakhiAI/livestock_biosecurity/data_generator.py:96-100 | without noise, the sample is the uniform draw and stays within [low, high] |
| DataGenerator.TableFields | KrishiSakhiAI/livestock_biosecurity/data_generator.py:26-37 | the fields of a range table, in order |
| DataGenerator.Lookup | KrishiSakhiAI/livestock_biosecurity/data_generator.py:26-37 | a field has a range if and only if the table names it, and the range is its row |
| DataGenerator.NormalRangesAreSensors | KrishiSakhiAI/livestock_biosecurity/data_generator.py:26-37 | the normal-range table names exactly the ten sensor fields |
| DataGenerator.NormalRangesWellFormed | KrishiSakhiAI/livestock_biosecurity/data_generator.py:26-37 | every normal range is non-negative with low ≤ high |
| DataGenerator.MastitisRangesShape | KrishiSakhiAI/livestock_biosecurity/data_generator.py:41-48 | the Mastitis profile overrides distinct sensor fields with well-formed ranges |
| DataGenerator.LamenessRangesShape | KrishiSakhiAI/livestock_biosecurity/data_generator.py:49-55 | the Lameness profile overrides distinct sensor fields with well-formed ranges |
| DataGenerator.BrdRangesShape | KrishiSakhiAI/livestock_biosecurity/data_generator.py:56-63 | the BRD profile overrides distinct sensor fields with well-formed ranges |
| DataGenerator.HeatStressRangesShape | KrishiSakhiAI/livestock_biosecurity/data_generator.py:64-71 | the Heat_Stress profile overrides distinct sensor fields with well-formed ranges |
| DataGenerator.MetabolicRangesShape | KrishiSakhiAI/livestock_biosecurity/data_generator.py:72-79 | the Metabolic profile overrides distinct sensor fields with well-formed ranges |
| DataGenerator.DiseaseProfileShape | KrishiSakhiAI/livestock_biosecurity/data_generator.py:40-80 | every disease profile, including the empty one for an unknown disease, overrides distinct sensor fields with well-formed ranges |
| DataGenerator.GaitRanges | KrishiSakhiAI/livestock_biosecurity/data_generator.py:83-88 | each gait profile gives well-formed ranges for gait score, stance symmetry and stride length |
| DataGenerator.SeverityFromName | KrishiSakhiAI/livestock_biosecurity/data_generator.py:138-149 | "mild" and "severe" select their branches; any other name takes the moderate branch |
| DataGenerator.GaitProfileChoice | KrishiSakhiAI/livestock_biosecurity/data_generator.py:151-166 | Lameness uses the gait profile of its severity, BRD and Heat_Stress the mild one, every other disease the normal one; only Lameness reaches the moderate and severe gaits |
| DataGenerator.SampleProfile | KrishiSakhiAI/livestock_biosecurity/data_generator.py:115-116 | sampling a table adds exactly its fields to the reading |
| DataGenerator.SampleProfileAt | KrishiSakhiAI/livestock_biosecurity/data_generator.py:115-116 | a table field gets its sampled value, and any other field keeps its value |
| DataGenerator.BlendBetween | KrishiSakhiAI/livestock_biosecurity/data_generator.py:140-149 | a blend lies between the healthy and diseased values; moderate lands closer to the diseased value than mild; severe is the diseased value |
| DataGenerator.BlendProfile | KrishiSakhiAI/livestock_biosecurity/data_generator.py:138-149 | blending changes no key of the reading |
| DataGenerator.BlendProfileAt | KrishiSakhiAI/livestock_biosecurity/data_generator.py:138-149 | each profile field becomes the blend of its healthy value and a disease-range sample with the severity's noise; other fields are unchanged |
| DataGenerator.HealthyFields | KrishiSakhiAI/livestock_biosecurity/data_generator.py:112-129 | a healthy reading has exactly the sensor and gait fields |
| DataGenerator.DiseaseFieldsInHealthy | KrishiSakhiAI/livestock_biosecurity/data_generator.py:131-149 | every field a disease overrides is present in the healthy reading it starts from |
| DataGenerator.SampleInto | KrishiSakhiAI/livestock_biosecurity/data_generator.py:115-116 | the sampling loop computes the sampled reading |
| DataGenerator.BlendInto | KrishiSakhiAI/livestock_biosecurity/data_generator.py:138-149 | the blending loop computes the blended reading |
| DataGenerator.GeneratedReadingsWellLabelled | KrishiSakhiAI/livestock_biosecurity/data_generator.py:112-177 | both kinds of reading carry consistent labels; a diseased reading has status 1 if and only if its severity is mild; both have every non-environment field |
| DataGenerator.GenerateHealthyReading | KrishiSakhiAI/livestock_biosecurity/data_generator.py:112-129 | computes the healthy reading |
| DataGenerator.GenerateDiseasedReading | KrishiSakhiAI/livestock_biosecurity/data_generator.py:131-177 | computes the diseased reading |
| DataGenerator.SampledWithinRange | KrishiSakhiAI/livestock_biosecurity/data_generator.py:96-100 | every sampled field lies within its clipped range |
| DataGenerator.HealthySensorsInRange | KrishiSakhiAI/livestock_biosecurity/data_generator.py:115-116 | each healthy sensor value lies within its normal range's clip bounds |
| DataGenerator.HealthyGaitInRange | KrishiSakhiAI/livestock_biosecurity/data_generator.py:119-122 | each healthy gait value lies within the normal gait profile's clip bounds |
| DataGenerator.DiseasedReadingFields | KrishiSakhiAI/livestock_biosecurity/data_generator.py:131-149 | a diseased sensor field is the healthy value when the disease does not override it, and otherwise the blend of healthy and disease sample |
| DataGenerator.DiseasedGaitFields | KrishiSakhiAI/livestock_biosecurity/data_generator.py:151-166 | each diseased gait field is sampled from the chosen gait profile |
| DataGenerator.DigitChar | KrishiSakhiAI/livestock_biosecurity/data_generator.py:105 | a digit character has its value |
| DataGenerator.Decimal | KrishiSakhiAI/livestock_biosecurity/data_generator.py:105 | decimal printing gives a non-empty digit string |
| DataGenerator.Zeros | KrishiSakhiAI/livestock_biosecurity/data_generator.py:105 | k zero characters |
| DataGenerator.ZeroPad | KrishiSakhiAI/livestock_biosecurity/data_generator.py:105 | `:04d` padding gives digits at least the width long and never truncates |
| DataGenerator.DecimalRoundTrip | KrishiSakhiAI/livestock_biosecurity/data_generator.py:270 | parsing a printed number gives it back |
| DataGenerator.ZerosAreZero | KrishiSakhiAI/livestock_biosecurity/data_generator.py:270 | a run of zeros parses as 0 |
| DataGenerator.LeadingZerosIgnored | KrishiSakhiAI/livestock_biosecurity/data_generator.py:270 | leading zeros do not change the parsed value |
| DataGenerator.Split | KrishiSakhiAI/livestock_biosecurity/data_generator.py:270 | `str.split` gives at least one part |
| DataGenerator.SplitWithoutSeparator | KrishiSakhiAI/livestock_biosecurity/data_generator.py:270 | a string without the separator splits into itself |
| DataGenerator.SplitAtFirstSeparator | KrishiSakhiAI/livestock_biosecurity/data_generator.py:270 | splitting cuts at the first separator and goes on with the rest |
| DataGenerator.AnimalIdRoundTrip | KrishiSakhiAI/livestock_biosecurity/data_generator.py:269-270 | the number parsed back from `KS-nnnn` is the animal's number |
| DataGenerator.AnimalIdsDistinct | KrishiSakhiAI/livestock_biosecurity/data_generator.py:105 | distinct animal numbers give distinct ids |
| DataGenerator.AnimalProfileOf | KrishiSakhiAI/livestock_biosecurity/data_generator.py:102-110 | the profile has the animal's id, a known breed and a lactation number in [0, 7) |
| DataGenerator.AnimalProfileRanges | KrishiSakhiAI/livestock_biosecurity/data_generator.py:107-108 | age lies in [1.5, 12) and weight in [350, 650) |
| DataGenerator.PlanEpisode | KrishiSakhiAI/livestock_biosecurity/data_generator.py:200-212 | planning fails (an empty `randint` range) if and only if the animal falls ill with fewer than 3 days; otherwise it has an episode if and only if it falls ill |
| DataGenerator.EpisodeWindow | KrishiSakhiAI/livestock_biosecurity/data_generator.py:207-212 | an episode lasts 3–10 days within the horizon, starts before max(1, days − 10), and has a real disease |
| DataGenerator.EpisodeStartsMild | KrishiSakhiAI/livestock_biosecurity/data_generator.py:219-226 | the first episode day is mild |
| DataGenerator.EpisodeEndsAtChosenSeverity | KrishiSakhiAI/livestock_biosecurity/data_generator.py:219-226 | the last episode day has the chosen severity |
| DataGenerator.EpisodeEscalates | KrishiSakhiAI/livestock_biosecurity/data_generator.py:219-226 | for a moderate or severe choice, severity never decreases over the days |
| DataGenerator.MildEpisodePeaksAtModerate | KrishiSakhiAI/livestock_biosecurity/data_generator.py:219-226 | a mild choice peaks at moderate mid-episode and ends mild |
| DataGenerator.Timestamp | KrishiSakhiAI/livestock_biosecurity/data_generator.py:215-216 | a day's timestamp falls between 06:00 and 19:59 of that day |
| DataGenerator.WithEnvironment | KrishiSakhiAI/livestock_biosecurity/data_generator.py:234-240 | adds exactly the ambient temperature, humidity and THI fields |
| DataGenerator.EnvironmentIndex | KrishiSakhiAI/livestock_biosecurity/data_generator.py:234-240 | the THI is the formula of the recorded temperature and humidity, lies in [67.04, 101.44] for in-range draws, and labels are unchanged |
| DataGenerator.RecordProperties | KrishiSakhiAI/livestock_biosecurity/data_generator.py:214-242 | every record is complete and consistently labelled; inside the episode it has the disease, with status 1 if and only if the day is mild; outside it is healthy |
| DataGenerator.AnimalRecords | KrishiSakhiAI/livestock_biosecurity/data_generator.py:214-242 | one record per day |
| DataGenerator.AnimalRecordsInTimeOrder | KrishiSakhiAI/livestock_biosecurity/data_generator.py:214-245 | an animal's records are numbered by day, strictly increasing in time, and carry its id |
| DataGenerator.DatasetOutcome | KrishiSakhiAI/livestock_biosecurity/data_generator.py:179-254 | generation fails if and only if the horizon is under 3 days and some animal falls ill; otherwise it gives animals × days records |
| DataGenerator.DatasetFrameOutcome | KrishiSakhiAI/livestock_biosecurity/data_generator.py:179-245 | the dataset fails if and only if the horizon is under 3 days and some animal falls ill, or there are no animals or no days (nothing to sort); otherwise it has animals × days records, at least one |
| DataGenerator.DatasetFailureSticks | KrishiSakhiAI/livestock_biosecurity/data_generator.py:197-212 | the first failing animal decides the outcome |
| DataGenerator.GenerateDayRecord | KrishiSakhiAI/livestock_biosecurity/data_generator.py:215-240 | computes one day's record |
| DataGenerator.GenerateAnimalRecords | KrishiSakhiAI/livestock_biosecurity/data_generator.py:214-242 | the day loop computes the animal's records |
| DataGenerator.GenerateDataset | KrishiSakhiAI/livestock_biosecurity/data_generator.py:179-245 | the animal loop computes the dataset, its generation failure, or the empty-frame failure of the sort |
| DataGenerator.GenerateRealtimeReading | KrishiSakhiAI/livestock_biosecurity/data_generator.py:256-286 | fails if and only if the id does not parse as `prefix-number`; otherwise gives the profile and reading of that animal under the given or random id |
| DataGenerator.RandomIdAlwaysParses | KrishiSakhiAI/livestock_biosecurity/data_generator.py:269-270 | without a given id, the random id parses to a number below 200 |
| DataGenerator.MalformedIdsRefused | KrishiSakhiAI/livestock_biosecurity/data_generator.py:270 | an id without `-`, or one with a non-numeric second part, is refused |
| Ingestion.DropSpaces | real_data_ingestion.py:33 | removes exactly the leading whitespace |
| Ingestion.DropTrailingSpaces | real_data_ingestion.py:33 | removes exactly the trailing whitespace |
| Ingestion.Strip | real_data_ingestion.py:33 | a stripped string neither starts nor ends with whitespace |
| Ingestion.RawPieces | real_data_ingestion.py:32 | splitting gives at least one piece |
| Ingestion.NonEmptyStripped | real_data_ingestion.py:33 | the kept sentences are non-empty and stripped |
| Ingestion.SplitIntoSentences | real_data_ingestion.py:30-33 | every sentence is non-empty and stripped |
| Ingestion.NoBreakOnePiece | real_data_ingestion.py:32 | text without a sentence break is one piece |
| Ingestion.PiecesHaveNoBreak | real_data_ingestion.py:32 | no piece holds a sentence break |
| Ingestion.NoBreakInSlice | real_data_ingestion.py:32-33 | a slice of break-free text is break-free |
| Ingestion.StripIsSlice | real_data_ingestion.py:33 | stripping gives a slice of the input |
| Ingestion.StrippedPiecesUnbroken | real_data_ingestion.py:33 | stripping keeps pieces break-free |
| Ingestion.SentencesAreUnbroken | real_data_ingestion.py:30-33 | no sentence holds a sentence break |
| Ingestion.UnbrokenTextIsOneSentence | real_data_ingestion.py:30-33 | break-free text is one stripped sentence, or none when blank |
| Ingestion.JoinLength | real_data_ingestion.py:56 | a chunk is as long as its sentences plus one space between each pair |
| Ingestion.GreedySuffixStep | real_data_ingestion.py:79-84 | the overlap scan takes the last sentence when it fits and goes on with the rest; otherwise it stops empty |
| Ingestion.TotalLengthSnoc | real_data_ingestion.py:62-65 | the running length adds the new sentence |
| Ingestion.GreedySuffixIsSuffix | real_data_ingestion.py:74-86 | the overlap is a suffix of the chunk |
| Ingestion.GreedySuffixFits | real_data_ingestion.py:74-86 | the overlap fits its budget |
| Ingestion.GreedySuffixMaximal | real_data_ingestion.py:74-86 | the overlap could not take one more sentence |
| Ingestion.StitchSnoc | real_data_ingestion.py:54-66 | a new chunk adds its non-overlap sentences to the stitched sequence |
| Ingestion.StartChunking | real_data_ingestion.py:64-66 | the first sentence opens the first chunk |
| Ingestion.CloseAndOpen | real_data_ingestion.py:54-66 | closing a full chunk and opening one from its overlap plus the sentence keeps the chunking shape and adds the sentence |
| Ingestion.AddToCurrent | real_data_ingestion.py:64-66 | adding a fitting sentence keeps the shape and adds the sentence |
| Ingestion.DocumentMetadata | real_data_ingestion.py:314-324 | one metadata entry per chunk |
| Ingestion.IndexMetadataSnoc | real_data_ingestion.py:306-324 | a new document appends its metadata and chunks |
| Ingestion.IndexMetadataCorrect | real_data_ingestion.py:302-324 | metadata matches chunks one to one; each entry's index lies below its total, its length is its chunk's length, and it names the document whose chunk it is |
| Ingestion.TotalLengthCons | real_data_ingestion.py:62 | the length of a list headed by a sentence is that sentence's plus the rest's |
| Ingestion.SemanticChunker.constructor | real_data_ingestion.py:24-26 | keeps the chunk size and overlap |
| Ingestion.SemanticChunker.OverlapSentences | real_data_ingestion.py:74-86 | returns the longest suffix of the chunk that fits the overlap budget |
| Ingestion.SemanticChunker.SemanticChunk | real_data_ingestion.py:35-72 | at most one sentence gives the text itself; otherwise chunks are the joins of groups that keep the chunking shape and, with their overlaps removed, rebuild the sentences exactly (`ChunksOf`) |
| Ingestion.SemanticChunker.PackSentences | real_data_ingestion.py:44-72 | the packing loop gives a chunking of the sentences |
| Ingestion.PackFirst | real_data_ingestion.py:48-66 | the loop state after the first sentence |
| Ingestion.PackClose | real_data_ingestion.py:54-66 | a step that closes a chunk keeps the loop state |
| Ingestion.PackAdd | real_data_ingestion.py:64-66 | a step that adds to the chunk keeps the loop state |
| Ingestion.PackDone | real_data_ingestion.py:68-72 | closing the last chunk gives a chunking of all sentences |
| Ingestion.DocumentIndexer.constructor | real_data_ingestion.py:279-282 | keeps its chunker |
| Ingestion.DocumentIndexer.LabelChunks | real_data_ingestion.py:314-324 | labels one document's chunks |
| Ingestion.DocumentIndexer.ChunkDocuments | real_data_ingestion.py:302-324 | the chunks of all documents in order, with matching metadata; each document's chunks are what the chunker makes of its content (`ChunksOf`), at least one |

## Left out

- Floating-point arithmetic and rounding. Values are `real`, and the `round(…, n)` applied for display is not modelled. The gait and behaviour alert rules compare the rounded scores, so a value within rounding distance of a threshold may fall on the other side in the program.
- Randomness. `random`, `numpy.random`, `uuid` and `datetime.now()` are oracle parameters (draws, `idOf` and `nowOf` by history position, `now`). The generator's seeding is not modelled.
- The dataset's timestamp is minutes since 2025-01-01 rather than a `datetime`. The ordering of the final `sort_values(['animal_id', 'timestamp'])` is not modelled; only its failure on a frame without records is. Instead `AnimalRecordsInTimeOrder` proves each animal's records are already in time order.
- The learned estimators are oracles. Not modelled: scikit-learn fitting, scalers and label encoders beyond their class list, cross-validation, feature importances, pickle save/load, `predict_batch`, pandas frames and CSV I/O.
- Alert messages are parameters of the rules rather than formatted strings. Neither the `details` dictionaries nor the logging is modelled.
- Alerts.BiosecurityAlertSystem.GenerateAlert does not state the severity counters directly. They are kept by `Valid()`: each counter equals the number of active alerts with that severity.
- Models.AnomalyDetector.Train: a failed fit leaves an earlier trained state as it was. The program has by then reset its scaler, which this model does not hold.
- Vision.SummarizeGait: for an empty herd `numpy.mean` gives NaN; the model reports the average as absent instead.
- Vision.SummarizeBehavior: for an empty herd `numpy.mean` of the health scores gives NaN; the model reports the average health as absent instead.
- `BEHAVIOR_PATTERNS` holds descriptive text that no branch reads, so it is not modelled.
- The vision analyzers' `details` and description strings are not modelled beyond the locomotion score table's name and description.
- Ingestion: the sentence-embedding model, the Ollama embedder, the FAISS store, PDF/CSV extraction and output files are left out. The chunker computes embeddings but never uses them.
- Ingestion: `\s` and `str.strip` are modelled on the ten ASCII characters Python treats as whitespace: tab to carriage return, the four information separators `\x1c`–`\x1f`, and space. Python also treats U+0085, U+00A0, U+1680, U+2000–U+200A, U+2028, U+2029, U+202F, U+205F and U+3000 as whitespace; the model does not, which keeps the splitting proofs small. A text using those characters splits into fewer sentences here.
- Helper methods split out of the source's loops: `SemanticChunker.PackSentences`, `DocumentIndexer.LabelChunks`, `GenerateAnimalRecords` and `GenerateDayRecord`. They keep each proof small and do not exist in the program.
- DataGenerator.GenerateRealtimeReading parses an id's number from ASCII digits only. Python's `int()` also accepts surrounding whitespace, a sign, underscores between digits (`"KS-0_7"` gives 7) and other Unicode digits; those ids are refused here.
