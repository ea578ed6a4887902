/**
 * Sensor readings as the pipeline passes them around: a dictionary from
 * field name to number, in which any field may be missing.
 */
module Telemetry {
  import opened Numerics

  /** The sixteen numeric fields of a sensor reading. */
  datatype Field =
    | BodyTemp | HeartRate | RespiratoryRate | ActivityLevel | RuminationMin
    | FeedIntake | WaterIntake | MilkYield | LyingTime | StepsCount
    | GaitScore | StanceSymmetry | StrideLength
    | AmbientTemp | HumidityPct | ThiIndex

  type Reading = map<Field, real>

  /**
   * A reading together with the labels the generator attaches to it:
   * health status (0 healthy, 1 at-risk, 2 critical), disease type
   * (`"None"` when healthy) and the anomaly flag (0 or 1).
   */
  datatype LabeledReading = LabeledReading(
    values: Reading,
    healthStatus: int,
    diseaseType: string,
    isAnomaly: int)

  /** A reading that carries every field. */
  predicate Complete(r: Reading)
  {
    forall f: Field :: f in r
  }

  /** `reading.get(field, default)` */
  function GetOr(r: Reading, f: Field, default: real): (v: real)
    ensures f in r ==> v == r[f]
    ensures f !in r ==> v == default
  {
    if f in r then r[f] else default
  }

  /** The ten physiological and activity fields (`SENSOR_FEATURES`). */
  const SensorFeatures: seq<Field> :=
    [BodyTemp, HeartRate, RespiratoryRate, ActivityLevel, RuminationMin,
     FeedIntake, WaterIntake, MilkYield, LyingTime, StepsCount]

  /** The inputs of the gait regressor (`GAIT_FEATURES`). */
  const GaitFeatures: seq<Field> :=
    [ActivityLevel, StepsCount, LyingTime, StrideLength, StanceSymmetry]

  /** `ALL_FEATURES`: sensor fields, the gait fields and the environment. */
  const AllFeatures: seq<Field> :=
    SensorFeatures + [GaitScore, StanceSymmetry, StrideLength, AmbientTemp, HumidityPct, ThiIndex]

  /** The full feature list names every field of a reading. */
  lemma EveryFieldIsAFeature(f: Field)
    ensures f in AllFeatures
  {
    var i := match f
      case BodyTemp => 0 case HeartRate => 1 case RespiratoryRate => 2 case ActivityLevel => 3
      case RuminationMin => 4 case FeedIntake => 5 case WaterIntake => 6 case MilkYield => 7
      case LyingTime => 8 case StepsCount => 9 case GaitScore => 10 case StanceSymmetry => 11
      case StrideLength => 12 case AmbientTemp => 13 case HumidityPct => 14 case ThiIndex => 15;
    assert AllFeatures[i] == f;
  }

  /** Temperature-humidity index from ambient temperature (°C) and relative humidity (%). */
  function Thi(ambientTemp: real, humidityPct: real): real
  {
    0.8 * ambientTemp + humidityPct / 100.0 * (ambientTemp - 14.4) + 46.4
  }

  /** For the generator's ambient ranges (22–40 °C, 40–90 %), the index stays within [67.04, 101.44]. */
  lemma ThiBounds(t: real, h: real)
    requires 22.0 <= t <= 40.0 && 40.0 <= h <= 90.0
    ensures 67.04 <= Thi(t, h) <= 101.44
  {
    var k, d := h / 100.0, t - 14.4;
    assert 0.4 <= k <= 0.9 && 7.6 <= d <= 25.6;
    MulNonNegative(k - 0.4, d - 7.6);
    MulNonNegative(0.9 - k, d - 7.6);
    assert k * d == (k - 0.4) * (d - 7.6) + 0.4 * d + 7.6 * k - 0.4 * 7.6;
    assert k * d == 0.9 * d + 7.6 * k - 0.9 * 7.6 - (0.9 - k) * (d - 7.6);
    assert Thi(t, h) == 0.8 * t + k * d + 46.4;
  }

  /** Hotter air never lowers the index while humidity is fixed and non-negative. */
  lemma ThiMonotoneInTemperature(t1: real, t2: real, h: real)
    requires t1 <= t2 && h >= 0.0
    ensures Thi(t1, h) <= Thi(t2, h)
  {
    var k := h / 100.0;
    assert k * (t2 - 14.4) - k * (t1 - 14.4) == k * (t2 - t1);
    assert k * (t2 - t1) >= 0.0;
  }
}
