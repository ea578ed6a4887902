/**
 * The alert taxonomies of the biosecurity alert system. The source keys
 * both tables by plain strings and falls back for keys it does not know,
 * so severities and categories stay strings here and the tables are
 * lookups with those fallbacks.
 */
module Taxonomy {

  const Critical: string := "CRITICAL"
  const High: string := "HIGH"
  const Medium: string := "MEDIUM"
  const Low: string := "LOW"

  /** The four severities the tables know. */
  predicate KnownSeverity(s: string)
  {
    s == Critical || s == High || s == Medium || s == Low
  }

  /** One row of `SEVERITY_LEVELS`. */
  datatype SeverityInfo = SeverityInfo(priority: nat, color: string, icon: string, responseTime: string)

  const CriticalInfo := SeverityInfo(1, "#ef4444", "🚨", "< 1 hour")
  const HighInfo := SeverityInfo(2, "#f97316", "⚠️", "< 4 hours")
  const MediumInfo := SeverityInfo(3, "#eab308", "🔔", "< 12 hours")
  const LowInfo := SeverityInfo(4, "#22c55e", "ℹ️", "< 24 hours")

  /** `SEVERITY_LEVELS.get(severity, SEVERITY_LEVELS['LOW'])` */
  function SeverityInfoOf(s: string): (info: SeverityInfo)
    ensures 1 <= info.priority <= 4
    ensures !KnownSeverity(s) ==> info == LowInfo
  {
    if s == Critical then CriticalInfo
    else if s == High then HighInfo
    else if s == Medium then MediumInfo
    else LowInfo
  }

  /** The sort key of the active-alert query: CRITICAL 0 … LOW 3, anything else 4. */
  function SortPriority(s: string): (p: nat)
    ensures p <= 4
    ensures p == 4 <==> !KnownSeverity(s)
  {
    if s == Critical then 0
    else if s == High then 1
    else if s == Medium then 2
    else if s == Low then 3
    else 4
  }

  /** For the four known severities the sort key is the table's priority shifted down by one, so both orders agree. */
  lemma SortKeyFollowsTable(s: string)
    requires KnownSeverity(s)
    ensures SortPriority(s) + 1 == SeverityInfoOf(s).priority
  {
  }

  const HealthRisk: string := "HEALTH_RISK"
  const Anomaly: string := "ANOMALY"
  const Lameness: string := "LAMENESS"
  const DiseaseRisk: string := "DISEASE_RISK"
  const Respiratory: string := "RESPIRATORY"
  const Isolation: string := "ISOLATION"
  const Biosecurity: string := "BIOSECURITY"
  const Environmental: string := "ENVIRONMENTAL"

  /** `ALERT_CATEGORIES.get(category, category)`: an unknown category is its own label. */
  function CategoryLabel(c: string): (text: string)
  {
    if c == HealthRisk then "Animal Health Risk Detected"
    else if c == Anomaly then "Behavioral Anomaly Detected"
    else if c == Lameness then "Lameness / Gait Issue Detected"
    else if c == DiseaseRisk then "Disease Outbreak Risk"
    else if c == Respiratory then "Respiratory Distress Detected"
    else if c == Isolation then "Social Isolation Detected"
    else if c == Biosecurity then "Biosecurity Protocol Alert"
    else if c == Environmental then "Environmental Stress Alert"
    else c
  }
}
