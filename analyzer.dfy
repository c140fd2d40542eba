/**
 * The orchestrator: red flags first, then the urgency tier, the causes, the
 * guidance for the tier and the explanation, assembled into one result.
 */
module Analyzer {
  import opened Wrappers
  import opened TriageTypes
  import opened RedFlags
  import opened Urgency
  import opened Causes
  import opened Explanation

  // The guidance text of each tier.
  const LowGuidance := "Monitor your symptoms. Consider rest and over-the-counter remedies if appropriate."
  const MediumGuidance := "Consider scheduling an appointment with your healthcare provider within the next few days."
  const HighGuidance := "Seek medical attention soon. Contact your doctor or visit an urgent care facility."
  const EmergencyGuidance := "Seek immediate medical attention. Call emergency services or go to the nearest emergency room."

  /** `guidance_map`: one guidance text per tier. */
  const GuidanceMap: map<UrgencyLevel, string> := map[
    Low := LowGuidance,
    Medium := MediumGuidance,
    High := HighGuidance,
    Emergency := EmergencyGuidance
  ]

  /** Every tier has an entry. */
  lemma GuidanceMapTotal(u: UrgencyLevel)
    ensures u in GuidanceMap
  {
  }

  /** `guidance_map[urgency_level]`: the lookup never fails. */
  function GuidanceFor(u: UrgencyLevel): (g: string)
    ensures u in GuidanceMap && g == GuidanceMap[u]
  {
    GuidanceMapTotal(u);
    GuidanceMap[u]
  }

  /** Different tiers get different guidance, so the guidance names the tier. */
  lemma GuidanceIdentifiesTier(u: UrgencyLevel, v: UrgencyLevel)
    requires GuidanceFor(u) == GuidanceFor(v)
    ensures u == v
  {
  }

  /**
   * `analyze_symptoms`, without the HTTP layer. A red-flag result is returned
   * as it is; otherwise the result has the calculated tier, the generated
   * causes, the tier's guidance, the templated explanation, no red flags
   * and is not an emergency.
   */
  method AnalyzeSymptoms(data: SymptomReport) returns (res: AnalysisResult)
    ensures CheckRedFlags(data).Some? ==> res == CheckRedFlags(data).value
    ensures CheckRedFlags(data).None? ==>
      && res.urgencyLevel == CalculateUrgency(data)
      && res.possibleCauses == PossibleCauses(data)
      && res.guidance == GuidanceFor(res.urgencyLevel)
      && res.redFlags == []
      && res.aiExplanation == Opening(data) + Bullets(PossibleCauses(data)) + Disclaimer
      && !res.isEmergency
    ensures res.isEmergency <==> res.urgencyLevel == Emergency
    ensures res.isEmergency <==> res.redFlags != []
    ensures 1 <= |res.possibleCauses| <= 2 && SortedDesc(res.possibleCauses)
  {
    var redFlagResult := CheckRedFlags(data);
    if redFlagResult.Some? {
      return redFlagResult.value;
    }

    var urgencyLevel := CalculateUrgency(data);
    var possibleCauses := GeneratePossibleCauses(data);
    var guidance := GuidanceFor(urgencyLevel);
    var aiExplanation := GenerateAiExplanation(data, possibleCauses);
    res := AnalysisResult(
      urgencyLevel, possibleCauses, guidance, [], aiExplanation, urgencyLevel == Emergency);
  }

  /**
   * Red flags take priority: blood in vomit with abdominal pain is an
   * emergency although none of the urgency indicators is present, so the
   * urgency heuristics alone would say low.
   */
  lemma RedFlagOverridesLowUrgency(data: SymptomReport)
    requires IsAbdomen(data.bodyRegion) && data.associatedSymptoms == [BloodInVomit]
    requires data.intensity.None? && data.duration.None?
    ensures CalculateUrgency(data) == Low
    ensures CheckRedFlags(data) == Some(RuleResult(GiBleeding))
  {
  }
}
