/** The urgency classifier used when no red flag fired. */
module Urgency {
  import opened Wrappers
  import opened TriageTypes

  /**
   * `calculate_urgency`: high, then medium, then low, the first tier whose
   * indicators are present. It never yields emergency.
   */
  function CalculateUrgency(data: SymptomReport): (u: UrgencyLevel)
    ensures u != Emergency
    ensures u == High <==>
      || IntensityOrZero(data) >= 8
      || Has(data, ShortnessOfBreath) || Has(data, ChestPain)
      || Has(data, Confusion) || Has(data, VisionChanges)
    ensures u == Medium <==>
      && u != High
      && (|| IntensityOrZero(data) >= 5
          || Has(data, Fever) || Has(data, Vomiting) || Has(data, Dizziness)
          || data.duration == Some(Weeks))
  {
    var intensity := IntensityOrZero(data);
    var symptoms := data.associatedSymptoms;
    if intensity >= 8 || ShortnessOfBreath in symptoms || ChestPain in symptoms
       || Confusion in symptoms || VisionChanges in symptoms then
      High
    else if intensity >= 5 || Fever in symptoms || Vomiting in symptoms
       || Dizziness in symptoms || data.duration == Some(Weeks) then
      Medium
    else
      Low
  }

  /**
   * The tier is monotonic: more intensity, more reported symptoms or a
   * duration of weeks never lower it.
   */
  lemma UrgencyMonotonic(a: SymptomReport, b: SymptomReport)
    requires IntensityOrZero(a) <= IntensityOrZero(b)
    requires forall s :: s in a.associatedSymptoms ==> s in b.associatedSymptoms
    requires a.duration == Some(Weeks) ==> b.duration == Some(Weeks)
    ensures Rank(CalculateUrgency(a)) <= Rank(CalculateUrgency(b))
  {
  }

  /** Intensity alone: 9 gives high, 6 medium, 2 low. */
  lemma UrgencyByIntensityAlone(data: SymptomReport)
    requires data.associatedSymptoms == [] && data.duration.None?
    ensures data.intensity == Some(9) ==> CalculateUrgency(data) == High
    ensures data.intensity == Some(6) ==> CalculateUrgency(data) == Medium
    ensures data.intensity == Some(2) ==> CalculateUrgency(data) == Low
    ensures data.intensity.None? ==> CalculateUrgency(data) == Low
  {
  }
}
