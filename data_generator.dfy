/**
 * The synthetic telemetry generator. Every random draw (NumPy's uniform,
 * normal and randint, Python's `random.choice`) is an oracle value passed
 * in by the caller; what remains is the generator's own logic: the clamped
 * range sampler, the disease blends, the gait-profile choice, the labels,
 * the illness-episode window and its severity escalation, the
 * temperature-humidity index and the animal-id format.
 */
module DataGenerator {
  import opened Wrappers
  import opened Numerics
  import opened Telemetry

  // ---------------------------------------------------------------------
  // Range sampling
  // ---------------------------------------------------------------------

  datatype Range = Range(low: real, high: real)

  /**
   * One draw for one sampled value: `unit` stands for the position of
   * `numpy.random.uniform(low, high)` in its range and `gauss` for a
   * standard normal deviate, scaled by `(high - low) * noise_factor`.
   */
  datatype Draw = Draw(unit: real, gauss: real)

  /** The draw the generator makes for each field it samples. */
  type DrawSource = Field -> Draw

  const DefaultNoise: real := 0.02
  const SevereNoise: real := 0.05

  /** `_sample_range(low, high, 1, noise_factor)[0]`: a noisy uniform sample clipped to [0.8·low, 1.2·high]. */
  function SampleRange(rg: Range, d: Draw, noiseFactor: real): (v: real)
    ensures 0.0 <= rg.low <= rg.high ==> 0.8 * rg.low <= v <= 1.2 * rg.high
  {
    var spread := rg.high - rg.low;
    Clip(rg.low + d.unit * spread + d.gauss * spread * noiseFactor, rg.low * 0.8, rg.high * 1.2)
  }

  /** Without noise, a uniform position in [0, 1] gives a value inside the range itself, untouched by the clip. */
  lemma SampleRangeNoiseless(rg: Range, d: Draw, noiseFactor: real)
    requires 0.0 <= rg.low <= rg.high && 0.0 <= d.unit <= 1.0 && d.gauss == 0.0
    ensures SampleRange(rg, d, noiseFactor) == rg.low + d.unit * (rg.high - rg.low)
    ensures rg.low <= SampleRange(rg, d, noiseFactor) <= rg.high
  {
    var spread := rg.high - rg.low;
    MulNonNegative(d.unit, spread);
    MulNonNegative(1.0 - d.unit, spread);
    assert d.gauss * spread * noiseFactor == 0.0;
  }

  // ---------------------------------------------------------------------
  // The generator's tables
  // ---------------------------------------------------------------------

  /** A table from field to range, in the order the generator walks it. */
  type Table = seq<(Field, Range)>

  function TableFields(t: Table): (fs: seq<Field>)
    ensures |fs| == |t|
    ensures forall k :: 0 <= k < |t| ==> fs[k] == t[k].0
  {
    seq(|t|, k requires 0 <= k < |t| => t[k].0)
  }

  predicate DistinctFields(t: Table)
  {
    forall i, j :: 0 <= i < j < |t| ==> t[i].0 != t[j].0
  }

  /** The range a table gives a field: its last entry for the field, as a dictionary built from the entries would. */
  function Lookup(t: Table, f: Field): (rg: Option<Range>)
    ensures rg.Some? <==> f in TableFields(t)
    ensures rg.Some? ==> (f, rg.value) in t
  {
    if |t| == 0 then None
    else if t[|t| - 1].0 == f then Some(t[|t| - 1].1)
    else
      var rest := Lookup(t[..|t| - 1], f);
      assert TableFields(t) == TableFields(t[..|t| - 1]) + [t[|t| - 1].0];
      rest
  }

  /** `NORMAL_RANGES` */
  const NormalRanges: Table := [
    (BodyTemp, Range(38.3, 39.4)),
    (HeartRate, Range(40.0, 80.0)),
    (RespiratoryRate, Range(15.0, 30.0)),
    (ActivityLevel, Range(50.0, 85.0)),
    (RuminationMin, Range(380.0, 520.0)),
    (FeedIntake, Range(18.0, 28.0)),
    (WaterIntake, Range(40.0, 80.0)),
    (MilkYield, Range(12.0, 30.0)),
    (LyingTime, Range(10.0, 14.0)),
    (StepsCount, Range(2000.0, 5000.0))]

  const Mastitis: string := "Mastitis"
  const Lameness: string := "Lameness"
  const Brd: string := "BRD"
  const HeatStress: string := "Heat_Stress"
  const MetabolicDisorder: string := "Metabolic_Disorder"

  /** The keys of `DISEASE_PROFILES`, in order. */
  const Diseases: seq<string> := [Mastitis, Lameness, Brd, HeatStress, MetabolicDisorder]

  /** The entries of `DISEASE_PROFILES`, one table per disease. */
  const MastitisRanges: Table :=
    [(BodyTemp, Range(39.5, 41.0)), (HeartRate, Range(75.0, 100.0)), (MilkYield, Range(3.0, 12.0)),
     (ActivityLevel, Range(20.0, 50.0)), (RuminationMin, Range(200.0, 350.0)), (FeedIntake, Range(10.0, 18.0))]
  const LamenessRanges: Table :=
    [(ActivityLevel, Range(10.0, 35.0)), (StepsCount, Range(200.0, 1200.0)), (LyingTime, Range(15.0, 20.0)),
     (FeedIntake, Range(12.0, 20.0)), (RuminationMin, Range(250.0, 380.0))]
  const BrdRanges: Table :=
    [(BodyTemp, Range(40.0, 41.5)), (RespiratoryRate, Range(35.0, 60.0)), (HeartRate, Range(80.0, 110.0)),
     (FeedIntake, Range(5.0, 14.0)), (ActivityLevel, Range(15.0, 40.0)), (RuminationMin, Range(150.0, 300.0))]
  const HeatStressRanges: Table :=
    [(BodyTemp, Range(39.8, 41.0)), (RespiratoryRate, Range(40.0, 80.0)), (WaterIntake, Range(80.0, 120.0)),
     (MilkYield, Range(5.0, 15.0)), (ActivityLevel, Range(15.0, 35.0)), (RuminationMin, Range(150.0, 300.0))]
  const MetabolicRanges: Table :=
    [(FeedIntake, Range(3.0, 12.0)), (MilkYield, Range(4.0, 12.0)), (RuminationMin, Range(100.0, 250.0)),
     (ActivityLevel, Range(15.0, 40.0)), (BodyTemp, Range(38.0, 38.5)), (HeartRate, Range(85.0, 110.0))]

  /** `DISEASE_PROFILES.get(disease, {})` */
  function DiseaseProfile(disease: string): Table
  {
    if disease == Mastitis then MastitisRanges
    else if disease == Lameness then LamenessRanges
    else if disease == Brd then BrdRanges
    else if disease == HeatStress then HeatStressRanges
    else if disease == MetabolicDisorder then MetabolicRanges
    else []
  }

  /** The three gait fields every reading carries. */
  predicate IsGaitField(f: Field)
  {
    f == GaitScore || f == StanceSymmetry || f == StrideLength
  }

  predicate IsEnvironmentField(f: Field)
  {
    f == AmbientTemp || f == HumidityPct || f == ThiIndex
  }

  /** The ten physiological and activity fields. */
  predicate IsSensorField(f: Field)
  {
    !IsGaitField(f) && !IsEnvironmentField(f)
  }

  /** Every range of a table is non-empty and non-negative, as the clip bounds of the sampler assume. */
  predicate WellFormedTable(t: Table)
  {
    forall k :: 0 <= k < |t| ==> 0.0 <= t[k].1.low <= t[k].1.high
  }

  /** The normal ranges name exactly the sensor fields. */
  lemma NormalRangesAreSensors(f: Field)
    ensures f in TableFields(NormalRanges) <==> IsSensorField(f)
  {
    assert TableFields(NormalRanges) == SensorFeatures;
    if IsSensorField(f) {
      var i := match f
        case BodyTemp => 0 case HeartRate => 1 case RespiratoryRate => 2 case ActivityLevel => 3
        case RuminationMin => 4 case FeedIntake => 5 case WaterIntake => 6 case MilkYield => 7
        case LyingTime => 8 case StepsCount => 9 case _ => 0;
      assert SensorFeatures[i] == f;
    } else {
      assert forall k :: 0 <= k < |SensorFeatures| ==> IsSensorField(SensorFeatures[k]);
    }
  }

  lemma NormalRangesWellFormed()
    ensures WellFormedTable(NormalRanges)
  {
  }

  /** A table of distinct sensor fields with well-formed ranges. */
  predicate SensorTable(t: Table)
  {
    && (forall k :: 0 <= k < |t| ==> IsSensorField(t[k].0))
    && DistinctFields(t)
    && WellFormedTable(t)
  }

  lemma MastitisRangesShape() ensures SensorTable(MastitisRanges) {}
  lemma LamenessRangesShape() ensures SensorTable(LamenessRanges) {}
  lemma BrdRangesShape() ensures SensorTable(BrdRanges) {}
  lemma HeatStressRangesShape() ensures SensorTable(HeatStressRanges) {}
  lemma MetabolicRangesShape() ensures SensorTable(MetabolicRanges) {}

  /** A disease profile only touches sensor fields, never gait or environment, each at most once, with well-formed ranges. */
  lemma DiseaseProfileShape(disease: string)
    ensures forall k :: 0 <= k < |DiseaseProfile(disease)| ==> IsSensorField(DiseaseProfile(disease)[k].0)
    ensures DistinctFields(DiseaseProfile(disease)) && WellFormedTable(DiseaseProfile(disease))
  {
    if disease == Mastitis {
      MastitisRangesShape();
    } else if disease == Lameness {
      LamenessRangesShape();
    } else if disease == Brd {
      BrdRangesShape();
    } else if disease == HeatStress {
      HeatStressRangesShape();
    } else if disease == MetabolicDisorder {
      MetabolicRangesShape();
    }
  }

  datatype GaitProfile = NormalGait | MildLamenessGait | ModerateLamenessGait | SevereLamenessGait

  /** `GAIT_PROFILES`, one table per profile. */
  function GaitRanges(g: GaitProfile): (t: Table)
    ensures TableFields(t) == [GaitScore, StanceSymmetry, StrideLength]
    ensures WellFormedTable(t)
  {
    match g
    case NormalGait =>
      [(GaitScore, Range(1.0, 1.5)), (StanceSymmetry, Range(0.90, 1.0)), (StrideLength, Range(1.4, 1.7))]
    case MildLamenessGait =>
      [(GaitScore, Range(2.0, 2.5)), (StanceSymmetry, Range(0.75, 0.90)), (StrideLength, Range(1.1, 1.4))]
    case ModerateLamenessGait =>
      [(GaitScore, Range(3.0, 3.5)), (StanceSymmetry, Range(0.55, 0.75)), (StrideLength, Range(0.7, 1.1))]
    case SevereLamenessGait =>
      [(GaitScore, Range(4.0, 5.0)), (StanceSymmetry, Range(0.30, 0.55)), (StrideLength, Range(0.3, 0.7))]
  }

  datatype IllnessSeverity = Mild | Moderate | Severe {
    function Rank(): nat {
      match this
      case Mild => 0
      case Moderate => 1
      case Severe => 2
    }
  }

  /** The severity names the generator accepts: anything but `"mild"` and `"severe"` takes the moderate branch. */
  function SeverityFromName(name: string): (s: IllnessSeverity)
    ensures s == Mild <==> name == "mild"
    ensures s == Severe <==> name == "severe"
  {
    if name == "mild" then Mild else if name == "severe" then Severe else Moderate
  }

  /** The choices of `random.choice(['mild', 'moderate', 'severe'])`, in order. */
  const Severities: seq<IllnessSeverity> := [Mild, Moderate, Severe]

  /** The gait profile of a diseased reading. */
  function GaitProfileFor(disease: string, severity: IllnessSeverity): GaitProfile
  {
    if disease == Lameness then
      match severity
      case Mild => MildLamenessGait
      case Severe => SevereLamenessGait
      case Moderate => ModerateLamenessGait
    else if disease == Brd || disease == HeatStress then MildLamenessGait
    else NormalGait
  }

  /**
   * Lameness follows its severity, respiratory disease and heat stress give
   * a mildly lame gait, and every other disease (known or not) a normal one;
   * only lameness ever reaches the moderate or severe gait.
   */
  lemma GaitProfileChoice(disease: string, severity: IllnessSeverity)
    ensures disease == Lameness ==> (GaitProfileFor(disease, severity) ==
      (if severity == Mild then MildLamenessGait else if severity == Severe then SevereLamenessGait else ModerateLamenessGait))
    ensures (disease == Brd || disease == HeatStress) ==> GaitProfileFor(disease, severity) == MildLamenessGait
    ensures disease !in {Lameness, Brd, HeatStress} ==> GaitProfileFor(disease, severity) == NormalGait
    ensures GaitProfileFor(disease, severity) in {ModerateLamenessGait, SevereLamenessGait} ==> disease == Lameness
  {
  }

  // ---------------------------------------------------------------------
  // Building readings
  // ---------------------------------------------------------------------

  /** The reading after sampling every entry of table `t` into `acc`, in table order. */
  function SampleProfile(acc: Reading, t: Table, src: DrawSource, noiseFactor: real): (r: Reading)
    ensures forall f :: f in r <==> f in acc || f in TableFields(t)
  {
    if |t| == 0 then acc
    else
      var (f, rg) := t[|t| - 1];
      assert TableFields(t) == TableFields(t[..|t| - 1]) + [f];
      SampleProfile(acc, t[..|t| - 1], src, noiseFactor)[f := SampleRange(rg, src(f), noiseFactor)]
  }

  /** After sampling a table, each of its fields holds a sample of its range; every other field is untouched. */
  lemma {:induction false} SampleProfileAt(acc: Reading, t: Table, src: DrawSource, noiseFactor: real, f: Field)
    ensures Lookup(t, f).Some? ==>
      SampleProfile(acc, t, src, noiseFactor)[f] == SampleRange(Lookup(t, f).value, src(f), noiseFactor)
    ensures Lookup(t, f).None? && f in acc ==> SampleProfile(acc, t, src, noiseFactor)[f] == acc[f]
  {
    if |t| > 0 && t[|t| - 1].0 != f {
      SampleProfileAt(acc, t[..|t| - 1], src, noiseFactor, f);
    }
  }

  /** How a disease sample is mixed into the healthy value. */
  function Blend(severity: IllnessSeverity, healthy: real, diseased: real): real
  {
    match severity
    case Mild => 0.6 * healthy + 0.4 * diseased
    case Moderate => 0.3 * healthy + 0.7 * diseased
    case Severe => diseased
  }

  function NoiseFor(severity: IllnessSeverity): real
  {
    if severity == Severe then SevereNoise else DefaultNoise
  }

  /**
   * A blended value lies between the healthy value and the disease sample,
   * and a worse severity lands closer to the disease sample (severe is the
   * sample itself).
   */
  lemma BlendBetween(severity: IllnessSeverity, healthy: real, diseased: real)
    ensures Min(healthy, diseased) <= Blend(severity, healthy, diseased) <= Max2(healthy, diseased)
    ensures Abs(Blend(Moderate, healthy, diseased) - diseased) <= Abs(Blend(Mild, healthy, diseased) - diseased)
    ensures Blend(Severe, healthy, diseased) == diseased
  {
  }

  function Min(a: real, b: real): real { if a <= b then a else b }

  function Max2(a: real, b: real): real { if a <= b then b else a }

  /** The reading after blending every entry of disease table `t` into `acc`, in table order. */
  function BlendProfile(acc: Reading, t: Table, src: DrawSource, severity: IllnessSeverity): (r: Reading)
    requires forall k :: 0 <= k < |t| ==> t[k].0 in acc
    ensures r.Keys == acc.Keys
  {
    if |t| == 0 then acc
    else
      var (f, rg) := t[|t| - 1];
      var prev := BlendProfile(acc, t[..|t| - 1], src, severity);
      prev[f := Blend(severity, prev[f], SampleRange(rg, src(f), NoiseFor(severity)))]
  }

  /**
   * Blending a table with distinct fields: each of its fields becomes the
   * blend of its healthy value with a disease sample; every other field
   * keeps its healthy value.
   */
  lemma {:induction false} BlendProfileAt(acc: Reading, t: Table, src: DrawSource, severity: IllnessSeverity, f: Field)
    requires forall k :: 0 <= k < |t| ==> t[k].0 in acc
    requires DistinctFields(t) && f in acc
    ensures Lookup(t, f).Some? ==> (BlendProfile(acc, t, src, severity)[f] ==
      Blend(severity, acc[f], SampleRange(Lookup(t, f).value, src(f), NoiseFor(severity))))
    ensures Lookup(t, f).None? ==> BlendProfile(acc, t, src, severity)[f] == acc[f]
  {
    if |t| > 0 {
      var init := t[..|t| - 1];
      assert DistinctFields(init);
      BlendProfileAt(acc, init, src, severity, f);
      if t[|t| - 1].0 == f {
        assert f !in TableFields(init);
      }
    }
  }

  /** The values of `_generate_healthy_reading`: the normal ranges, then the normal gait profile. */
  function HealthyValues(src: DrawSource): Reading
  {
    SampleProfile(SampleProfile(map[], NormalRanges, src, DefaultNoise), GaitRanges(NormalGait), src, DefaultNoise)
  }

  /** A healthy reading carries every field except the environmental three. */
  lemma HealthyFields(src: DrawSource, f: Field)
    ensures f in HealthyValues(src) <==> !IsEnvironmentField(f)
  {
    NormalRangesAreSensors(f);
  }

  /** Every field a disease profile blends is present in the healthy reading it starts from. */
  lemma DiseaseFieldsInHealthy(disease: string, src: DrawSource)
    ensures forall k :: 0 <= k < |DiseaseProfile(disease)| ==> DiseaseProfile(disease)[k].0 in HealthyValues(src)
  {
    DiseaseProfileShape(disease);
    forall k | 0 <= k < |DiseaseProfile(disease)|
      ensures DiseaseProfile(disease)[k].0 in HealthyValues(src)
    {
      HealthyFields(src, DiseaseProfile(disease)[k].0);
    }
  }

  /** The values of `_generate_diseased_reading`: a healthy reading, the disease blend, then the disease's gait profile. */
  function DiseasedValues(disease: string, severity: IllnessSeverity, d: ReadingDraws): Reading
  {
    var healthy := HealthyValues(d.baseline);
    DiseaseFieldsInHealthy(disease, d.baseline);
    var blended := BlendProfile(healthy, DiseaseProfile(disease), d.disease, severity);
    SampleProfile(blended, GaitRanges(GaitProfileFor(disease, severity)), d.gait, DefaultNoise)
  }

  /**
   * The three draw sources of one reading: the healthy baseline, the
   * disease samples, and the gait profile re-sampled after the blend.
   */
  datatype ReadingDraws = ReadingDraws(baseline: DrawSource, disease: DrawSource, gait: DrawSource)

  /** The labels a reading carries, for a disease episode or none. */
  predicate LabelsConsistent(r: LabeledReading)
  {
    && r.healthStatus in {0, 1, 2}
    && (r.healthStatus == 0 <==> r.diseaseType == "None")
    && (r.healthStatus == 0 <==> r.isAnomaly == 0)
    && r.isAnomaly in {0, 1}
  }

  /** Samples each entry of `t` into `reading`, in table order. */
  method SampleInto(reading: Reading, t: Table, src: DrawSource, noiseFactor: real) returns (out: Reading)
    ensures out == SampleProfile(reading, t, src, noiseFactor)
  {
    out := reading;
    var i := 0;
    while i < |t|
      invariant 0 <= i <= |t|
      invariant out == SampleProfile(reading, t[..i], src, noiseFactor)
    {
      assert t[..i + 1][..i] == t[..i];
      var (f, rg) := t[i];
      out := out[f := SampleRange(rg, src(f), noiseFactor)];
      i := i + 1;
    }
    assert t[..i] == t;
  }

  /** Blends each entry of disease table `t` into `reading`, in table order. */
  method BlendInto(reading: Reading, t: Table, src: DrawSource, severity: IllnessSeverity) returns (out: Reading)
    requires forall k :: 0 <= k < |t| ==> t[k].0 in reading
    ensures out == BlendProfile(reading, t, src, severity)
  {
    out := reading;
    var i := 0;
    while i < |t|
      invariant 0 <= i <= |t|
      invariant out == BlendProfile(reading, t[..i], src, severity)
    {
      assert t[..i + 1][..i] == t[..i];
      var (f, rg) := t[i];
      out := out[f := Blend(severity, out[f], SampleRange(rg, src(f), NoiseFor(severity)))];
      i := i + 1;
    }
    assert t[..i] == t;
  }

  /** A healthy reading with its labels: status 0, disease `"None"`, no anomaly. */
  function HealthyReading(src: DrawSource): LabeledReading
  {
    LabeledReading(HealthyValues(src), 0, "None", 0)
  }

  /** A diseased reading with its labels: at-risk (1) when mild, critical (2) otherwise, the disease, an anomaly. */
  function DiseasedReading(disease: string, severity: IllnessSeverity, d: ReadingDraws): LabeledReading
  {
    LabeledReading(DiseasedValues(disease, severity, d), if severity == Mild then 1 else 2, disease, 1)
  }

  /** Both kinds of reading carry consistent labels (for any disease name other than `"None"`), and every non-environmental field. */
  lemma GeneratedReadingsWellLabelled(disease: string, severity: IllnessSeverity, d: ReadingDraws, f: Field)
    requires disease != "None"
    ensures LabelsConsistent(HealthyReading(d.baseline)) && LabelsConsistent(DiseasedReading(disease, severity, d))
    ensures DiseasedReading(disease, severity, d).healthStatus == 1 <==> severity == Mild
    ensures !IsEnvironmentField(f) ==> f in HealthyReading(d.baseline).values && f in DiseasedReading(disease, severity, d).values
  {
    HealthyFields(d.baseline, f);
    if IsSensorField(f) {
      DiseasedReadingFields(disease, severity, d, f);
    } else if IsGaitField(f) {
      DiseasedGaitFields(disease, severity, d, f);
    }
  }

  method GenerateHealthyReading(src: DrawSource) returns (r: LabeledReading)
    ensures r == HealthyReading(src)
  {
    var values := SampleInto(map[], NormalRanges, src, DefaultNoise);
    values := SampleInto(values, GaitRanges(NormalGait), src, DefaultNoise);
    r := LabeledReading(values, 0, "None", 0);
  }

  method GenerateDiseasedReading(disease: string, severity: IllnessSeverity, d: ReadingDraws) returns (r: LabeledReading)
    ensures r == DiseasedReading(disease, severity, d)
  {
    var healthy := GenerateHealthyReading(d.baseline);
    DiseaseFieldsInHealthy(disease, d.baseline);
    var values := BlendInto(healthy.values, DiseaseProfile(disease), d.disease, severity);
    values := SampleInto(values, GaitRanges(GaitProfileFor(disease, severity)), d.gait, DefaultNoise);
    r := LabeledReading(values, if severity == Mild then 1 else 2, disease, 1);
  }

  /** A sample of a well-formed table's range for `f` lies within [0.8·low, 1.2·high] of that range. */
  predicate WithinSampledRange(t: Table, f: Field, v: real)
  {
    Lookup(t, f).Some? ==> 0.8 * Lookup(t, f).value.low <= v <= 1.2 * Lookup(t, f).value.high
  }

  /** After sampling a well-formed table, each of its fields lies within [0.8·low, 1.2·high] of its range. */
  lemma SampledWithinRange(acc: Reading, t: Table, src: DrawSource, noiseFactor: real, f: Field)
    requires WellFormedTable(t) && f in TableFields(t)
    ensures WithinSampledRange(t, f, SampleProfile(acc, t, src, noiseFactor)[f])
  {
    SampleProfileAt(acc, t, src, noiseFactor, f);
    var rg := Lookup(t, f).value;
    var k :| 0 <= k < |t| && t[k] == (f, rg);
    assert 0.0 <= rg.low <= rg.high;
  }

  /** Every sensor value of a healthy reading lies within [0.8·low, 1.2·high] of its normal range. */
  lemma HealthySensorsInRange(src: DrawSource, f: Field)
    requires IsSensorField(f)
    ensures f in HealthyValues(src) && WithinSampledRange(NormalRanges, f, HealthyValues(src)[f])
  {
    NormalRangesAreSensors(f);
    NormalRangesWellFormed();
    HealthyFields(src, f);
    var vitals := SampleProfile(map[], NormalRanges, src, DefaultNoise);
    SampledWithinRange(map[], NormalRanges, src, DefaultNoise, f);
    SampleProfileAt(vitals, GaitRanges(NormalGait), src, DefaultNoise, f);
  }

  /** Every gait value of a healthy reading lies within [0.8·low, 1.2·high] of the normal gait profile's range. */
  lemma HealthyGaitInRange(src: DrawSource, f: Field)
    requires IsGaitField(f)
    ensures WithinSampledRange(GaitRanges(NormalGait), f, HealthyValues(src)[f])
  {
    var vitals := SampleProfile(map[], NormalRanges, src, DefaultNoise);
    SampledWithinRange(vitals, GaitRanges(NormalGait), src, DefaultNoise, f);
  }

  /**
   * A diseased reading differs from its healthy baseline only in the
   * disease's own fields, which hold the blend of the healthy value with a
   * disease sample, and in the gait fields, which hold a sample of the
   * chosen gait profile.
   */
  lemma DiseasedReadingFields(disease: string, severity: IllnessSeverity, d: ReadingDraws, f: Field)
    requires IsSensorField(f)
    ensures f in DiseasedValues(disease, severity, d)
    ensures Lookup(DiseaseProfile(disease), f).None? ==>
      DiseasedValues(disease, severity, d)[f] == HealthyValues(d.baseline)[f]
    ensures Lookup(DiseaseProfile(disease), f).Some? ==>
      DiseasedValues(disease, severity, d)[f] == Blend(severity, HealthyValues(d.baseline)[f],
        SampleRange(Lookup(DiseaseProfile(disease), f).value, d.disease(f), NoiseFor(severity)))
  {
    var healthy := HealthyValues(d.baseline);
    HealthyFields(d.baseline, f);
    DiseaseFieldsInHealthy(disease, d.baseline);
    DiseaseProfileShape(disease);
    var blended := BlendProfile(healthy, DiseaseProfile(disease), d.disease, severity);
    BlendProfileAt(healthy, DiseaseProfile(disease), d.disease, severity, f);
    SampleProfileAt(blended, GaitRanges(GaitProfileFor(disease, severity)), d.gait, DefaultNoise, f);
  }

  /** The gait fields of a diseased reading are samples of the gait profile chosen for the disease and severity. */
  lemma DiseasedGaitFields(disease: string, severity: IllnessSeverity, d: ReadingDraws, f: Field)
    requires IsGaitField(f)
    ensures f in DiseasedValues(disease, severity, d)
    ensures DiseasedValues(disease, severity, d)[f] ==
      SampleRange(Lookup(GaitRanges(GaitProfileFor(disease, severity)), f).value, d.gait(f), DefaultNoise)
  {
    var healthy := HealthyValues(d.baseline);
    DiseaseFieldsInHealthy(disease, d.baseline);
    var blended := BlendProfile(healthy, DiseaseProfile(disease), d.disease, severity);
    SampleProfileAt(blended, GaitRanges(GaitProfileFor(disease, severity)), d.gait, DefaultNoise, f);
  }

  // ---------------------------------------------------------------------
  // Animal ids and profiles
  // ---------------------------------------------------------------------

  predicate IsDigit(c: char)
  {
    '0' <= c <= '9'
  }

  predicate AllDigits(s: string)
  {
    forall k :: 0 <= k < |s| ==> IsDigit(s[k])
  }

  function DigitChar(d: nat): (c: char)
    requires d < 10
    ensures IsDigit(c) && c as int - '0' as int == d
  {
    ('0' as int + d) as char
  }

  /** The decimal digits of `n`, most significant first, without leading zeros. */
  function Decimal(n: nat): (s: string)
    ensures |s| >= 1 && AllDigits(s)
  {
    if n < 10 then [DigitChar(n)] else Decimal(n / 10) + [DigitChar(n % 10)]
  }

  /** The number a string of decimal digits denotes. */
  function DecimalValue(s: string): nat
    requires AllDigits(s)
  {
    if |s| == 0 then 0 else DecimalValue(s[..|s| - 1]) * 10 + (s[|s| - 1] as int - '0' as int)
  }

  function Zeros(k: nat): (z: string)
    ensures |z| == k && AllDigits(z)
  {
    seq(k, _ => '0')
  }

  /** `%0{width}d` of a digit string: left-padded with zeros to at least `width` characters. */
  function ZeroPad(digits: string, width: nat): (p: string)
    requires AllDigits(digits)
    ensures AllDigits(p) && |p| >= width && |p| >= |digits|
  {
    if |digits| >= width then digits else Zeros(width - |digits|) + digits
  }

  /** `f"KS-{n:04d}"` */
  function AnimalId(n: nat): string
  {
    "KS-" + ZeroPad(Decimal(n), 4)
  }

  lemma {:induction false} DecimalRoundTrip(n: nat)
    ensures DecimalValue(Decimal(n)) == n
  {
    if n >= 10 {
      DecimalRoundTrip(n / 10);
      var s := Decimal(n);
      assert s[..|s| - 1] == Decimal(n / 10);
    }
  }

  lemma {:induction false} ZerosAreZero(k: nat)
    ensures DecimalValue(Zeros(k)) == 0
  {
    if k > 0 {
      assert Zeros(k)[..k - 1] == Zeros(k - 1);
      ZerosAreZero(k - 1);
    }
  }

  lemma {:induction false} LeadingZerosIgnored(k: nat, s: string)
    requires AllDigits(s)
    ensures DecimalValue(Zeros(k) + s) == DecimalValue(s)
  {
    if |s| == 0 {
      assert Zeros(k) + s == Zeros(k);
      ZerosAreZero(k);
    } else {
      var z := Zeros(k) + s;
      assert z[..|z| - 1] == Zeros(k) + s[..|s| - 1];
      LeadingZerosIgnored(k, s[..|s| - 1]);
    }
  }

  /** `s.split(sep)`: the pieces between separators, one more than there are separators. */
  function Split(s: string, sep: char): (parts: seq<string>)
    ensures |parts| >= 1
  {
    if |s| == 0 then [""]
    else
      var rest := Split(s[1..], sep);
      if s[0] == sep then [""] + rest else [[s[0]] + rest[0]] + rest[1..]
  }

  lemma {:induction false} SplitWithoutSeparator(s: string, sep: char)
    requires sep !in s
    ensures Split(s, sep) == [s]
  {
    if |s| > 0 {
      SplitWithoutSeparator(s[1..], sep);
      assert [s[0]] + s[1..] == s;
    }
  }

  lemma {:induction false} SplitAtFirstSeparator(a: string, sep: char, b: string)
    requires sep !in a
    ensures Split(a + [sep] + b, sep) == [a] + Split(b, sep)
  {
    var s := a + [sep] + b;
    if |a| == 0 {
      assert s[1..] == b;
    } else {
      assert s[1..] == a[1..] + [sep] + b;
      SplitAtFirstSeparator(a[1..], sep, b);
      assert [a[0]] + a[1..] == a;
    }
  }

  datatype GenError =
    | EpisodeTooShort(nDays: nat)
    | MalformedAnimalId(id: string)
    | EmptyDataset      // KeyError from sorting a frame built from no records

  /**
   * `int(aid.split('-')[1])`: fails when there is no second piece or when
   * that piece is not a non-empty run of decimal digits.
   */
  function ParseAnimalNumber(aid: string): (r: Result<nat, GenError>)
  {
    var parts := Split(aid, '-');
    if |parts| < 2 || |parts[1]| == 0 || !AllDigits(parts[1]) then Failure(MalformedAnimalId(aid))
    else Success(DecimalValue(parts[1]))
  }

  /** Every generated animal id parses back to the number it was made from. */
  lemma AnimalIdRoundTrip(n: nat)
    ensures ParseAnimalNumber(AnimalId(n)) == Success(n)
  {
    var digits := Decimal(n);
    var padded := ZeroPad(digits, 4);
    assert AnimalId(n) == "KS" + ['-'] + padded;
    assert forall k :: 0 <= k < |padded| ==> padded[k] != '-';
    SplitWithoutSeparator(padded, '-');
    SplitAtFirstSeparator("KS", '-', padded);
    DecimalRoundTrip(n);
    if |digits| < 4 {
      LeadingZerosIgnored(4 - |digits|, digits);
    }
  }

  /** Different animals get different ids. */
  lemma AnimalIdsDistinct(i: nat, j: nat)
    requires i != j
    ensures AnimalId(i) != AnimalId(j)
  {
    AnimalIdRoundTrip(i);
    AnimalIdRoundTrip(j);
  }

  const Breeds: seq<string> :=
    ["Holstein Friesian", "Jersey", "Sahiwal", "Gir", "Red Sindhi", "Murrah Buffalo", "Tharparkar", "Crossbred"]

  datatype AnimalProfile = AnimalProfile(
    animalId: string,
    breed: string,
    ageYears: real,
    weightKg: real,
    lactationNumber: int)

  /** The draws of one profile: the breed choice, two uniform positions and the lactation `randint`. */
  datatype ProfileDraws = ProfileDraws(breedK: nat, ageUnit: real, weightUnit: real, lactationK: nat)

  /** `_generate_animal_profile(n)` */
  function AnimalProfileOf(n: nat, d: ProfileDraws): (p: AnimalProfile)
    ensures p.animalId == AnimalId(n) && p.breed in Breeds && 0 <= p.lactationNumber < 7
  {
    AnimalProfile(AnimalId(n), Breeds[d.breedK % |Breeds|], Uniform(1.5, 12.0, d.ageUnit),
      Uniform(350.0, 650.0, d.weightUnit), RandInt(0, 7, d.lactationK))
  }

  /** For positions in [0, 1) the age lies in [1.5, 12) years and the weight in [350, 650) kg. */
  lemma AnimalProfileRanges(n: nat, d: ProfileDraws)
    requires 0.0 <= d.ageUnit < 1.0 && 0.0 <= d.weightUnit < 1.0
    ensures 1.5 <= AnimalProfileOf(n, d).ageYears < 12.0
    ensures 350.0 <= AnimalProfileOf(n, d).weightKg < 650.0
  {
  }

  // ---------------------------------------------------------------------
  // Illness episodes
  // ---------------------------------------------------------------------

  /** One animal's illness: a disease, the severity it builds up to, and a window of consecutive days. */
  datatype Episode = Episode(disease: string, severity: IllnessSeverity, onset: nat, duration: nat)

  /** The draws that decide an animal's illness: `random()`, the two choices and the two `randint`s. */
  datatype EpisodeDraws = EpisodeDraws(illnessUnit: real, diseaseK: nat, severityK: nat, onsetK: nat, durationK: nat)

  predicate FallsIll(d: EpisodeDraws, anomalyRate: real)
  {
    d.illnessUnit < anomalyRate * 3.0
  }

  function MaxInt(a: int, b: int): int { if a >= b then a else b }

  function MinInt(a: int, b: int): int { if a <= b then a else b }

  /**
   * The illness decision of one animal. An ill animal in a horizon of fewer
   * than three days makes `randint(3, ...)` fail, which ends the whole
   * dataset generation.
   */
  function PlanEpisode(nDays: nat, anomalyRate: real, d: EpisodeDraws): (r: Result<Option<Episode>, GenError>)
    ensures r.Failure? <==> FallsIll(d, anomalyRate) && nDays < 3
    ensures r.Success? ==> (r.value.Some? <==> FallsIll(d, anomalyRate))
  {
    if !FallsIll(d, anomalyRate) then Success(None)
    else if nDays < 3 then Failure(EpisodeTooShort(nDays))
    else
      var onset := RandInt(0, MaxInt(1, nDays - 10), d.onsetK);
      var duration := RandInt(3, MinInt(11, nDays - onset + 1), d.durationK);
      Success(Some(Episode(Diseases[d.diseaseK % |Diseases|], Severities[d.severityK % |Severities|], onset, duration)))
  }

  /** A planned episode lasts three to ten days, all inside the horizon, with a known disease. */
  lemma EpisodeWindow(nDays: nat, anomalyRate: real, d: EpisodeDraws)
    requires PlanEpisode(nDays, anomalyRate, d).Success? && PlanEpisode(nDays, anomalyRate, d).value.Some?
    ensures var e := PlanEpisode(nDays, anomalyRate, d).value.value;
      && 3 <= e.duration <= 10 && e.onset + e.duration <= nDays
      && e.onset < MaxInt(1, nDays - 10)
      && e.disease in Diseases && e.disease != "None"
  {
  }

  predicate InEpisode(e: Episode, day: int)
  {
    e.onset <= day < e.onset + e.duration
  }

  /** How far into the episode `day` is: 0 on the first day, 1 on the last. */
  function Progress(e: Episode, day: int): real
  {
    (day - e.onset) as real / MaxInt(1, e.duration - 1) as real
  }

  /** The severity of one episode day: mild early on, moderate in the middle, the chosen severity at the end. */
  function DaySeverity(e: Episode, day: int): IllnessSeverity
  {
    var p := Progress(e, day);
    if p < 0.3 then Mild else if p < 0.7 then Moderate else e.severity
  }

  lemma EpisodeStartsMild(e: Episode)
    ensures DaySeverity(e, e.onset) == Mild
  {
  }

  lemma EpisodeEndsAtChosenSeverity(e: Episode)
    requires e.duration >= 2
    ensures DaySeverity(e, e.onset + e.duration - 1) == e.severity
  {
    var m := (e.duration - 1) as real;
    assert Progress(e, e.onset + e.duration - 1) == m / m;
  }

  /** When the chosen severity is at least moderate, severity never decreases from one episode day to a later one. */
  lemma EpisodeEscalates(e: Episode, day1: int, day2: int)
    requires e.severity != Mild && day1 <= day2
    ensures DaySeverity(e, day1).Rank() <= DaySeverity(e, day2).Rank()
  {
    var den := MaxInt(1, e.duration - 1) as real;
    var a, b := (day1 - e.onset) as real, (day2 - e.onset) as real;
    assert a / den <= b / den by {
      MulNonNegative(b / den - a / den, den);
      assert (b / den - a / den) * den == b - a;
    }
  }

  /**
   * An episode whose chosen severity is mild still passes through a moderate
   * day in its middle and ends mild again: severity rises and falls.
   */
  lemma MildEpisodePeaksAtModerate(e: Episode)
    requires e.severity == Mild && e.duration >= 3
    ensures InEpisode(e, e.onset + (e.duration - 1) / 2)
    ensures DaySeverity(e, e.onset + (e.duration - 1) / 2) == Moderate
    ensures DaySeverity(e, e.onset + e.duration - 1) == Mild
  {
    var j := (e.duration - 1) / 2;
    var m := e.duration - 1;
    assert 0.3 * m as real <= j as real < 0.7 * m as real;
    RatioWithin(j as real, m as real, 0.3, 0.7);
    EpisodeEndsAtChosenSeverity(e);
  }

  // ---------------------------------------------------------------------
  // The dataset
  // ---------------------------------------------------------------------

  /** Minutes since 1 January 2025: the day plus `randint(6, 20)` hours and `randint(0, 60)` minutes. */
  function Timestamp(day: nat, hourK: nat, minuteK: nat): (t: int)
    ensures day * 1440 + 360 <= t < day * 1440 + 1200
  {
    day * 1440 + RandInt(6, 20, hourK) * 60 + RandInt(0, 60, minuteK)
  }

  /** The draws of one day of one animal. */
  datatype DayDraws = DayDraws(hourK: nat, minuteK: nat, reading: ReadingDraws, ambientUnit: real, humidityUnit: real)

  datatype AnimalDraws = AnimalDraws(profile: ProfileDraws, episode: EpisodeDraws, days: seq<DayDraws>)

  datatype Record = Record(profile: AnimalProfile, timestampMinutes: int, day: nat, reading: LabeledReading)

  /** The environmental fields added to every record: ambient temperature, humidity and their index. */
  function WithEnvironment(r: LabeledReading, ambientUnit: real, humidityUnit: real): (e: LabeledReading)
    ensures e.values.Keys == r.values.Keys + {AmbientTemp, HumidityPct, ThiIndex}
  {
    var t := Uniform(22.0, 40.0, ambientUnit);
    var h := Uniform(40.0, 90.0, humidityUnit);
    r.(values := r.values[AmbientTemp := t][HumidityPct := h][ThiIndex := Thi(t, h)])
  }

  /** The reading of `day`: diseased at the day's severity inside the episode, healthy otherwise. */
  function DayReading(ep: Option<Episode>, day: nat, d: ReadingDraws): LabeledReading
  {
    if ep.Some? && InEpisode(ep.value, day) then DiseasedReading(ep.value.disease, DaySeverity(ep.value, day), d)
    else HealthyReading(d.baseline)
  }

  function RecordOf(profile: AnimalProfile, ep: Option<Episode>, day: nat, d: DayDraws): Record
  {
    Record(profile, Timestamp(day, d.hourK, d.minuteK), day,
      WithEnvironment(DayReading(ep, day, d.reading), d.ambientUnit, d.humidityUnit))
  }

  /** The records of animal `n`, one per day. */
  function AnimalRecords(n: nat, ep: Option<Episode>, a: AnimalDraws): (rs: seq<Record>)
    ensures |rs| == |a.days|
  {
    seq(|a.days|, day requires 0 <= day < |a.days| => RecordOf(AnimalProfileOf(n, a.profile), ep, day, a.days[day]))
  }

  /** A prefix one element longer is the shorter prefix and that element. */
  lemma PrefixExtends<T>(s: seq<T>, i: nat)
    requires i < |s|
    ensures s[..i + 1] == s[..i] + [s[i]]
  {
  }

  predicate DaysFit(ds: seq<AnimalDraws>, nDays: nat)
  {
    forall k :: 0 <= k < |ds| ==> |ds[k].days| == nDays
  }

  /** The records of `generate_dataset`, animal by animal, or the error that stops it. */
  function Dataset(nDays: nat, anomalyRate: real, ds: seq<AnimalDraws>): Result<seq<Record>, GenError>
    requires DaysFit(ds, nDays)
  {
    if |ds| == 0 then Success([])
    else
      var last := ds[|ds| - 1];
      match Dataset(nDays, anomalyRate, ds[..|ds| - 1])
      case Failure(e) => Failure(e)
      case Success(prev) =>
        match PlanEpisode(nDays, anomalyRate, last.episode)
        case Failure(e) => Failure(e)
        case Success(ep) => Success(prev + AnimalRecords(|ds| - 1, ep, last))
  }

  /** Generation fails exactly when the horizon is under three days and some animal falls ill; otherwise it yields one record per animal and day. */
  lemma {:induction false} DatasetOutcome(nDays: nat, anomalyRate: real, ds: seq<AnimalDraws>)
    requires DaysFit(ds, nDays)
    ensures Dataset(nDays, anomalyRate, ds).Failure? <==>
      nDays < 3 && exists k :: 0 <= k < |ds| && FallsIll(ds[k].episode, anomalyRate)
    ensures Dataset(nDays, anomalyRate, ds).Success? ==> |Dataset(nDays, anomalyRate, ds).value| == |ds| * nDays
  {
    if |ds| > 0 {
      var init := ds[..|ds| - 1];
      DatasetOutcome(nDays, anomalyRate, init);
      assert forall k :: 0 <= k < |init| ==> init[k] == ds[k];
      assert (|ds| - 1) * nDays + nDays == |ds| * nDays;
    }
  }

  /** `generate_dataset`: the records, unless generation fails or there are none to sort. */
  function DatasetFrame(nDays: nat, anomalyRate: real, ds: seq<AnimalDraws>): Result<seq<Record>, GenError>
    requires DaysFit(ds, nDays)
  {
    match Dataset(nDays, anomalyRate, ds)
    case Failure(e) => Failure(e)
    case Success(records) => if |records| == 0 then Failure(EmptyDataset) else Success(records)
  }

  /**
   * The dataset fails exactly when the horizon is under three days and
   * some animal falls ill, or when there are no animals or no days;
   * otherwise it holds one record per animal and day.
   */
  lemma DatasetFrameOutcome(nDays: nat, anomalyRate: real, ds: seq<AnimalDraws>)
    requires DaysFit(ds, nDays)
    ensures DatasetFrame(nDays, anomalyRate, ds).Failure? <==>
      || (nDays < 3 && exists k :: 0 <= k < |ds| && FallsIll(ds[k].episode, anomalyRate))
      || |ds| == 0 || nDays == 0
    ensures DatasetFrame(nDays, anomalyRate, ds).Success? ==> |DatasetFrame(nDays, anomalyRate, ds).value| == |ds| * nDays > 0
  {
    DatasetOutcome(nDays, anomalyRate, ds);
    assert |ds| * nDays == 0 <==> |ds| == 0 || nDays == 0;
  }

  /** Once a prefix of the animals fails, the whole generation fails with that error. */
  lemma {:induction false} DatasetFailureSticks(nDays: nat, anomalyRate: real, ds: seq<AnimalDraws>, i: nat)
    requires DaysFit(ds, nDays) && i <= |ds|
    requires Dataset(nDays, anomalyRate, ds[..i]).Failure?
    ensures Dataset(nDays, anomalyRate, ds) == Dataset(nDays, anomalyRate, ds[..i])
  {
    if i < |ds| {
      var init := ds[..|ds| - 1];
      assert init[..i] == ds[..i];
      DatasetFailureSticks(nDays, anomalyRate, init, i);
    } else {
      assert ds[..i] == ds;
    }
  }

  /** The added index equals the formula of the added ambient fields and, for positions in [0, 1), lies in [67.04, 101.44]; labels are kept. */
  lemma EnvironmentIndex(r: LabeledReading, ambientUnit: real, humidityUnit: real)
    ensures var e := WithEnvironment(r, ambientUnit, humidityUnit);
      && e.values[ThiIndex] == Thi(e.values[AmbientTemp], e.values[HumidityPct])
      && (0.0 <= ambientUnit < 1.0 && 0.0 <= humidityUnit < 1.0 ==> 67.04 <= e.values[ThiIndex] <= 101.44)
      && e.healthStatus == r.healthStatus && e.diseaseType == r.diseaseType && e.isAnomaly == r.isAnomaly
  {
    var t := Uniform(22.0, 40.0, ambientUnit);
    var h := Uniform(40.0, 90.0, humidityUnit);
    if 0.0 <= ambientUnit < 1.0 && 0.0 <= humidityUnit < 1.0 {
      ThiBounds(t, h);
    }
  }

  /**
   * Every record carries consistent labels and every field, and a record of
   * an episode day is labelled with the episode's disease, at-risk exactly on
   * the days whose severity is mild; outside an episode it is healthy.
   */
  lemma RecordProperties(profile: AnimalProfile, ep: Option<Episode>, day: nat, d: DayDraws)
    requires ep.Some? ==> ep.value.disease != "None"
    ensures var r := RecordOf(profile, ep, day, d).reading;
      && LabelsConsistent(r) && Complete(r.values)
      && (ep.Some? && InEpisode(ep.value, day) ==>
            r.diseaseType == ep.value.disease && (r.healthStatus == 1 <==> DaySeverity(ep.value, day) == Mild))
      && (!(ep.Some? && InEpisode(ep.value, day)) ==> r.healthStatus == 0)
  {
    var base := DayReading(ep, day, d.reading);
    var disease := if ep.Some? then ep.value.disease else Mastitis;
    var severity := if ep.Some? then DaySeverity(ep.value, day) else Mild;
    forall f: Field
      ensures !IsEnvironmentField(f) ==> f in base.values
    {
      GeneratedReadingsWellLabelled(disease, severity, d.reading, f);
    }
    GeneratedReadingsWellLabelled(disease, severity, d.reading, AmbientTemp);
    EnvironmentIndex(base, d.ambientUnit, d.humidityUnit);
  }

  /** Within one animal the records come day by day with strictly increasing timestamps, so a sort by timestamp keeps them in place. */
  lemma AnimalRecordsInTimeOrder(n: nat, ep: Option<Episode>, a: AnimalDraws)
    ensures forall i :: 0 <= i < |a.days| ==> AnimalRecords(n, ep, a)[i].day == i
    ensures forall i, j :: 0 <= i < j < |a.days| ==>
      AnimalRecords(n, ep, a)[i].timestampMinutes < AnimalRecords(n, ep, a)[j].timestampMinutes
    ensures forall i :: 0 <= i < |a.days| ==> AnimalRecords(n, ep, a)[i].profile.animalId == AnimalId(n)
  {
  }

  /** One pass of the day loop of `generate_dataset`: the day's reading, its environment and its timestamp. */
  method GenerateDayRecord(profile: AnimalProfile, ep: Option<Episode>, day: nat, dd: DayDraws) returns (record: Record)
    ensures record == RecordOf(profile, ep, day, dd)
  {
    var base: LabeledReading;
    if ep.Some? && InEpisode(ep.value, day) {
      base := GenerateDiseasedReading(ep.value.disease, DaySeverity(ep.value, day), dd.reading);
    } else {
      base := GenerateHealthyReading(dd.reading.baseline);
    }
    var reading := WithEnvironment(base, dd.ambientUnit, dd.humidityUnit);
    record := Record(profile, Timestamp(day, dd.hourK, dd.minuteK), day, reading);
  }

  /** The day loop of `generate_dataset` for animal `n`: one record per day, diseased on the episode's days. */
  method GenerateAnimalRecords(n: nat, ep: Option<Episode>, a: AnimalDraws) returns (animalRecords: seq<Record>)
    ensures animalRecords == AnimalRecords(n, ep, a)
  {
    var profile := AnimalProfileOf(n, a.profile);
    animalRecords := [];
    var day := 0;
    while day < |a.days|
      invariant 0 <= day <= |a.days|
      invariant animalRecords == AnimalRecords(n, ep, a)[..day]
    {
      PrefixExtends(AnimalRecords(n, ep, a), day);
      var record := GenerateDayRecord(profile, ep, day, a.days[day]);
      animalRecords := animalRecords + [record];
      day := day + 1;
    }
  }

  /** `generate_dataset` up to the ordering of the final sort: animal by animal, day by day. */
  method GenerateDataset(nDays: nat, anomalyRate: real, ds: seq<AnimalDraws>) returns (r: Result<seq<Record>, GenError>)
    requires DaysFit(ds, nDays)
    ensures r == DatasetFrame(nDays, anomalyRate, ds)
  {
    var records: seq<Record> := [];
    var i := 0;
    while i < |ds|
      invariant 0 <= i <= |ds|
      invariant Dataset(nDays, anomalyRate, ds[..i]) == Success(records)
    {
      assert ds[..i + 1][..i] == ds[..i];
      var plan := PlanEpisode(nDays, anomalyRate, ds[i].episode);
      if plan.Failure? {
        DatasetFailureSticks(nDays, anomalyRate, ds, i + 1);
        return Failure(plan.error);
      }
      var animalRecords := GenerateAnimalRecords(i, plan.value, ds[i]);
      records := records + animalRecords;
      i := i + 1;
    }
    assert ds[..i] == ds;
    if |records| == 0 {
      return Failure(EmptyDataset);
    }
    r := Success(records);
  }

  // ---------------------------------------------------------------------
  // Real-time readings
  // ---------------------------------------------------------------------

  /** The draws of one real-time reading. */
  datatype RealtimeDraws = RealtimeDraws(idK: nat, profile: ProfileDraws, reading: ReadingDraws, ambientUnit: real, humidityUnit: real)

  datatype RealtimeReading = RealtimeReading(profile: AnimalProfile, reading: LabeledReading, timestamp: string)

  /** `animal_id or f"KS-{randint(0, 200):04d}"`: an absent or empty id is replaced by a random one. */
  function ChosenAnimalId(animalId: Option<string>, idK: nat): string
  {
    if animalId.Some? && animalId.value != "" then animalId.value else AnimalId(RandInt(0, 200, idK))
  }

  /** `health == 'diseased' and disease`: a diseased reading needs a non-empty disease name. */
  predicate WantsDisease(health: string, disease: Option<string>)
  {
    health == "diseased" && disease.Some? && disease.value != ""
  }

  function RealtimeOf(number: nat, aid: string, health: string, disease: Option<string>, severity: string,
                      d: RealtimeDraws, now: string): RealtimeReading
  {
    var profile := AnimalProfileOf(number, d.profile).(animalId := aid);
    var reading :=
      if WantsDisease(health, disease) then DiseasedReading(disease.value, SeverityFromName(severity), d.reading)
      else HealthyReading(d.reading.baseline);
    RealtimeReading(profile, WithEnvironment(reading, d.ambientUnit, d.humidityUnit), now)
  }

  /** `generate_realtime_reading`: fails only when the id has no parsable number after its first dash. */
  method GenerateRealtimeReading(animalId: Option<string>, health: string, disease: Option<string>, severity: string,
                                 d: RealtimeDraws, now: string) returns (r: Result<RealtimeReading, GenError>)
    ensures var aid := ChosenAnimalId(animalId, d.idK);
      && (r.Failure? <==> ParseAnimalNumber(aid).Failure?)
      && (r.Success? ==> r.value == RealtimeOf(ParseAnimalNumber(aid).value, aid, health, disease, severity, d, now))
  {
    var aid := if animalId.Some? && animalId.value != "" then animalId.value else AnimalId(RandInt(0, 200, d.idK));
    var number := ParseAnimalNumber(aid);
    if number.Failure? {
      return Failure(number.error);
    }
    var profile := AnimalProfileOf(number.value, d.profile).(animalId := aid);
    var reading: LabeledReading;
    if health == "diseased" && disease.Some? && disease.value != "" {
      reading := GenerateDiseasedReading(disease.value, SeverityFromName(severity), d.reading);
    } else {
      reading := GenerateHealthyReading(d.reading.baseline);
    }
    reading := WithEnvironment(reading, d.ambientUnit, d.humidityUnit);
    r := Success(RealtimeReading(profile, reading, now));
  }

  /** Without a caller-supplied id the random id always parses, to a number below 200, and keeps its profile id. */
  lemma RandomIdAlwaysParses(animalId: Option<string>, idK: nat)
    requires animalId.None? || animalId.value == ""
    ensures ParseAnimalNumber(ChosenAnimalId(animalId, idK)).Success?
    ensures ParseAnimalNumber(ChosenAnimalId(animalId, idK)).value < 200
  {
    AnimalIdRoundTrip(RandInt(0, 200, idK));
  }

  /** An id whose second dash-separated piece is empty or not all digits is refused. */
  lemma MalformedIdsRefused(aid: string)
    requires '-' !in aid
    ensures ParseAnimalNumber(aid).Failure?
    ensures ParseAnimalNumber(aid + "-x").Failure?
  {
    SplitWithoutSeparator(aid, '-');
    SplitAtFirstSeparator(aid, '-', "x");
    SplitWithoutSeparator("x", '-');
    assert aid + "-x" == aid + ['-'] + "x";
  }
}
