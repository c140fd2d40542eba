/**
 * The red-flag matcher: five emergency patterns checked in a fixed order,
 * the first that matches deciding a complete emergency result.
 */
module RedFlags {
  import opened Wrappers
  import opened TriageTypes

  /** The five rules, named after the pattern each detects. */
  datatype RedFlagRule =
    | CardiacBreathing   // chest + shortness of breath
    | Meningitis         // head + severe headache + fever + neck stiffness
    | GiBleeding         // abdomen + blood in vomit
    | SevereNeuro        // intensity >= 8 + confusion or weakness
    | CardiacSweating    // chest + sweating + palpitations

  /** The rules in the order they are tried. */
  const RedFlagCatalog: seq<RedFlagRule> :=
    [CardiacBreathing, Meningitis, GiBleeding, SevereNeuro, CardiacSweating]

  /** The guard of each rule, as a table entry independent of the if-chain below. */
  predicate Fires(rule: RedFlagRule, data: SymptomReport) {
    match rule
    case CardiacBreathing => data.bodyRegion == Chest && Has(data, ShortnessOfBreath)
    case Meningitis =>
      IsHead(data.bodyRegion) && Has(data, SevereHeadache) && Has(data, Fever) && Has(data, NeckStiffness)
    case GiBleeding => IsAbdomen(data.bodyRegion) && Has(data, BloodInVomit)
    case SevereNeuro => IntensityOrZero(data) >= 8 && (Has(data, Confusion) || Has(data, Weakness))
    case CardiacSweating => data.bodyRegion == Chest && Has(data, Sweating) && Has(data, Palpitations)
  }

  // The emergency result of each rule (probabilities in percent).
  const CardiacBreathingResult: AnalysisResult :=
    AnalysisResult(
      Emergency,
      [PossibleCause(
        "Cardiac Event",
        "Chest pain with breathing difficulty may indicate a serious cardiac condition.",
        80,
        ["Chest pain", "Shortness of breath"])],
      "\U{1F6A8} SEEK IMMEDIATE MEDICAL ATTENTION. Call emergency services or go to the nearest emergency room immediately.",
      ["Chest pain with shortness of breath"],
      "This combination of symptoms requires immediate medical evaluation to rule out serious cardiac conditions.",
      true)

  const MeningitisResult: AnalysisResult :=
    AnalysisResult(
      Emergency,
      [PossibleCause(
        "Meningitis",
        "Severe headache with fever and neck stiffness may indicate meningitis.",
        70,
        ["Severe headache", "Fever", "Neck stiffness"])],
      "\U{1F6A8} SEEK IMMEDIATE MEDICAL ATTENTION. This combination requires urgent evaluation.",
      ["Severe headache", "Fever", "Neck stiffness"],
      "These symptoms together may indicate a serious infection requiring immediate treatment.",
      true)

  const GiBleedingResult: AnalysisResult :=
    AnalysisResult(
      Emergency,
      [PossibleCause(
        "Gastrointestinal Bleeding",
        "Abdominal pain with blood in vomit indicates serious GI bleeding.",
        85,
        ["Abdominal pain", "Blood in vomit"])],
      "\U{1F6A8} SEEK IMMEDIATE MEDICAL ATTENTION. Go to the emergency room immediately.",
      ["Abdominal pain with blood in vomit"],
      "Gastrointestinal bleeding requires immediate medical intervention.",
      true)

  const SevereNeuroResult: AnalysisResult :=
    AnalysisResult(
      Emergency,
      [PossibleCause(
        "Serious Medical Condition",
        "Severe pain with neurological symptoms requires immediate evaluation.",
        75,
        ["Severe pain", "Confusion or weakness"])],
      "\U{1F6A8} SEEK IMMEDIATE MEDICAL ATTENTION. These symptoms require urgent evaluation.",
      ["Severe pain with neurological symptoms"],
      "The combination of severe pain and neurological symptoms needs immediate medical assessment.",
      true)

  const CardiacSweatingResult: AnalysisResult :=
    AnalysisResult(
      Emergency,
      [PossibleCause(
        "Cardiac Event",
        "Chest pain with sweating and palpitations may indicate a heart attack.",
        80,
        ["Chest pain", "Sweating", "Palpitations"])],
      "\U{1F6A8} SEEK IMMEDIATE MEDICAL ATTENTION. Call emergency services immediately.",
      ["Chest pain with sweating and palpitations"],
      "These are classic symptoms of a potential cardiac event requiring immediate care.",
      true)

  /** The complete emergency result each rule produces. */
  function RuleResult(rule: RedFlagRule): (res: AnalysisResult)
    ensures res.urgencyLevel == Emergency && res.isEmergency
    ensures |res.redFlags| > 0 && |res.possibleCauses| == 1
    ensures res.possibleCauses[0].probability <= 100
  {
    match rule
    case CardiacBreathing => CardiacBreathingResult
    case Meningitis => MeningitisResult
    case GiBleeding => GiBleedingResult
    case SevereNeuro => SevereNeuroResult
    case CardiacSweating => CardiacSweatingResult
  }

  /**
   * The index of the first rule of the catalog, from index `i` on, whose
   * guard holds; None when no rule from `i` on fires.
   */
  function FirstFiringFrom(data: SymptomReport, i: nat): (k: Option<nat>)
    requires i <= |RedFlagCatalog|
    ensures k.Some? ==> i <= k.value < |RedFlagCatalog| && Fires(RedFlagCatalog[k.value], data)
    ensures k.Some? ==> forall j :: i <= j < k.value ==> !Fires(RedFlagCatalog[j], data)
    ensures k.None? ==> forall j :: i <= j < |RedFlagCatalog| ==> !Fires(RedFlagCatalog[j], data)
    decreases |RedFlagCatalog| - i
  {
    if i == |RedFlagCatalog| then None
    else if Fires(RedFlagCatalog[i], data) then Some(i)
    else FirstFiringFrom(data, i + 1)
  }

  /**
   * `check_red_flags`: the rules tried one after another with early returns.
   * The result is the one of the first rule whose guard holds, and None only
   * when no guard holds.
   */
  function CheckRedFlags(data: SymptomReport): (res: Option<AnalysisResult>)
    ensures res.None? <==> forall j :: 0 <= j < |RedFlagCatalog| ==> !Fires(RedFlagCatalog[j], data)
    ensures res.Some? ==>
      exists k :: 0 <= k < |RedFlagCatalog| && Fires(RedFlagCatalog[k], data)
        && (forall j :: 0 <= j < k ==> !Fires(RedFlagCatalog[j], data))
        && res.value == RuleResult(RedFlagCatalog[k])
    ensures res.Some? ==>
      && res.value.urgencyLevel == Emergency && res.value.isEmergency
      && |res.value.redFlags| > 0 && |res.value.possibleCauses| == 1
  {
    var symptoms := data.associatedSymptoms;
    var region := data.bodyRegion;
    var intensity := IntensityOrZero(data);
    if region == Chest && ShortnessOfBreath in symptoms then
      assert Fires(RedFlagCatalog[0], data);
      Some(RuleResult(CardiacBreathing))
    else if IsHead(region) && SevereHeadache in symptoms && Fever in symptoms && NeckStiffness in symptoms then
      assert Fires(RedFlagCatalog[1], data);
      Some(RuleResult(Meningitis))
    else if IsAbdomen(region) && BloodInVomit in symptoms then
      assert Fires(RedFlagCatalog[2], data);
      Some(RuleResult(GiBleeding))
    else if intensity >= 8 && (Confusion in symptoms || Weakness in symptoms) then
      assert Fires(RedFlagCatalog[3], data);
      Some(RuleResult(SevereNeuro))
    else if region == Chest && Sweating in symptoms && Palpitations in symptoms then
      assert Fires(RedFlagCatalog[4], data);
      Some(RuleResult(CardiacSweating))
    else
      None
  }

  /** The if-chain and the rule table agree on every report. */
  lemma CheckRedFlagsIsFirstMatch(data: SymptomReport)
    ensures CheckRedFlags(data) ==
      match FirstFiringFrom(data, 0)
      case None => None
      case Some(k) => Some(RuleResult(RedFlagCatalog[k]))
  {
  }

  /**
   * First match wins: chest pain with shortness of breath AND sweating with
   * palpitations satisfies rules 1 and 5, and gives the rule-1 result.
   */
  lemma BreathingRuleWinsOverSweatingRule(data: SymptomReport)
    requires data.bodyRegion == Chest
    requires Has(data, ShortnessOfBreath) && Has(data, Sweating) && Has(data, Palpitations)
    ensures Fires(CardiacSweating, data)
    ensures CheckRedFlags(data).Some?
    ensures CheckRedFlags(data).value.possibleCauses[0].name == "Cardiac Event"
    ensures CheckRedFlags(data).value.possibleCauses[0].probability == 80
    ensures CheckRedFlags(data).value.redFlags == ["Chest pain with shortness of breath"]
  {
  }

  /**
   * Rule 4 does not look at the body region, and an absent intensity counts
   * as 0: it fires iff the intensity is present and at least 8 and confusion
   * or weakness is reported.
   */
  lemma SevereNeuroIgnoresRegion(data: SymptomReport, region: BodyRegion)
    ensures Fires(SevereNeuro, data) == Fires(SevereNeuro, data.(bodyRegion := region))
    ensures Fires(SevereNeuro, data) <==>
      data.intensity.Some? && data.intensity.value >= 8 && (Has(data, Confusion) || Has(data, Weakness))
  {
  }

  /** So in every region, severe pain with confusion or weakness is an emergency. */
  lemma SevereNeuroIsEmergency(data: SymptomReport)
    requires data.intensity.Some? && data.intensity.value >= 8
    requires Has(data, Confusion) || Has(data, Weakness)
    ensures CheckRedFlags(data).Some? && CheckRedFlags(data).value.urgencyLevel == Emergency
  {
  }
}
