# Symptom triage engine — a Dafny model

This project models the decision core of a symptom-checker backend. A
symptom report names one body region. It may add a pain type, a 0–10
intensity, a duration, triggers and associated symptoms. The analysis runs
in four steps:

1. **Red flags** (`RedFlags`). Five emergency patterns are tried in a fixed
   order. The first that matches returns a complete emergency result.
2. **Urgency** (`Urgency`). Without a red flag, the report is put into the
   high, medium or low tier by fixed indicators.
3. **Possible causes** (`Causes`). A small rule table, with a generic
   fallback cause, produces one or two causes sorted by descending
   probability.
4. **Guidance and explanation** (`Analyzer`, `Explanation`). The tier
   selects a guidance text. A templated explanation names the region, the
   intensity when it is positive, one bullet per cause, and a fixed
   disclaimer.

`AiService` models the separate AI-service wrapper, which the pipeline above
never calls:
- the prompt it builds from a symptom dictionary, which always opens with
  the safety instructions;
- the dispatch on the provider name;
- the safety gate for provider responses.

Supporting modules:
- `Wrappers`: `Option`/`Result`.
- `Text`: decimal rendering, case folding, joining, prefix/suffix and
  substring predicates.
- `TriageTypes`: the enumerations and records.

Probabilities are whole percents. `int(p * 100)` of every probability
literal in the source is exactly that percent, so the explanation shows the
stored number.

Where the prose description of the system and the code disagree, the model
follows the code:
- The percentage in the explanation is truncated with `int(...)`, not
  rounded.
- The red-flag rules are not mutually exclusive. Rules 1 and 5 both fire
  for a chest report with shortness of breath, sweating and palpitations.
  Rule 4 ignores the region and can coincide with any other rule.
  `RedFlags.BreathingRuleWinsOverSweatingRule` shows that order decides.
- The code puts no bound on the intensity, so the model takes any integer.
- The explanation is always the template. No provider text is validated or
  used in its place.

## Model

| member | source | states |
|---|---|---|
| RedFlags.RuleResult | backend/main.py:133-227 | every rule's result is an emergency with `isEmergency` set, at least one red-flag text and exactly one cause whose probability is at most 100% |
| RedFlags.FirstFiringFrom | backend/main.py:123-229 | reference first-match search over the rule table: the index returned holds a rule whose guard is true and every earlier rule's guard is false; None exactly when no rule from `i` on fires |
| RedFlags.CheckRedFlags | backend/main.py:123-229 | None iff no rule's guard holds; otherwise the result is that of the first rule whose guard holds, an emergency with red flags and one cause |
| RedFlags.CheckRedFlagsIsFirstMatch | backend/main.py:123-229 | the if-chain and the first-match search over the rule table agree on every report |
| RedFlags.BreathingRuleWinsOverSweatingRule | backend/main.py:133-148 | a chest report with shortness of breath, sweating and palpitations fires rule 5 too, but gets rule 1's cardiac result with rule 1's red-flag text |
| RedFlags.SevereNeuroIgnoresRegion | backend/main.py:192-207 | rule 4 gives the same answer in every region, and fires iff the intensity is present and at least 8 and confusion or weakness is reported |
| RedFlags.SevereNeuroIsEmergency | backend/main.py:192-207 | intensity of at least 8 with confusion or weakness is an emergency in every region |
| Urgency.CalculateUrgency | backend/main.py:231-252 | never emergency; high iff intensity (absent = 0) is at least 8 or shortness of breath, chest pain, confusion or vision changes is reported; medium iff not high and intensity is at least 5, or fever, vomiting or dizziness is reported, or the duration is weeks |
| Urgency.UrgencyMonotonic | backend/main.py:231-252 | more intensity, a superset of symptoms, or a duration of weeks never lowers the tier |
| Urgency.UrgencyByIntensityAlone | backend/main.py:233-250 | with no symptoms and no duration, intensity 9 is high, 6 medium, 2 low, absent low |
| Causes.InsertDescPermutation | backend/main.py:320 | inserting a cause into a list adds exactly that cause, nothing else |
| Causes.InsertDescSorted | backend/main.py:320 | inserting into a list in descending probability keeps it descending |
| Causes.InsertDescStable | backend/main.py:320 | the inserted cause goes after every cause of equal probability: for each probability the causes having it keep their order |
| Causes.SortDescSorted | backend/main.py:320 | the sort result is in descending probability and a permutation of its input |
| Causes.SortDescStable | backend/main.py:320 | the sort is stable: for each probability, the causes with it appear in input order, as Python's sort guarantees |
| Causes.SortDescOfSorted | backend/main.py:320 | a list already in descending order is left as it is |
| Causes.InsertionPoint | backend/main.py:320 | finds the index where the stable insertion puts the cause |
| Causes.SortByProbability | backend/main.py:319-320 | the loop computes the stable descending sort of its input |
| Causes.GeneratePossibleCauses | backend/main.py:254-321 | the appended causes, sorted, are one or two causes in descending probability, and the sort leaves the rule table's order unchanged |
| Causes.PossibleCausesShape | backend/main.py:254-321 | for every report there are one or two causes, in descending probability |
| Causes.HeadThrobbingCauses | backend/main.py:262-276 | a throbbing head pain gives Tension Headache (60%) then Migraine (40%) |
| Causes.HeadOtherPainCauses | backend/main.py:262-317 | any other head pain falls back to General Discomfort (50%) alone |
| Causes.ChestCauses | backend/main.py:278-317 | chest pressure gives Muscle Strain (50%) then Anxiety (30%); any other chest pain falls back to General Discomfort |
| Causes.GallbladderCauses | backend/main.py:293-317 | in the upper right abdomen the list is Gallbladder Issues (50%) alone iff nausea is reported, otherwise General Discomfort alone |
| Causes.UnmatchedRegionsFallBack | backend/main.py:311-317 | the upper left and lower left abdomen have no rule and always get General Discomfort alone |
| Causes.AppendicitisIff | backend/main.py:302-317 | in the lower right abdomen Appendicitis is listed iff the intensity is present and at least 6; otherwise only General Discomfort |
| Explanation.IntensityClause | backend/main.py:329-334 | the intensity clause is empty iff the intensity (absent = 0) is not positive |
| Explanation.GenerateAiExplanation | backend/main.py:323-346 | the explanation is the opening, one bullet per cause in list order, then the disclaimer; it starts with the region sentence and ends with the disclaimer |
| Explanation.BulletsAppend | backend/main.py:338-340 | the bullets of two lists, one after the other, are the bullets of the joined list |
| Explanation.OneBulletPerCause | backend/main.py:338-340 | when no name or description holds the bullet character, the bullets hold it exactly once per cause |
| Text.NatToStringRoundTrip | backend/main.py:339-340 | the decimal text of a percentage reads back as that number |
| Analyzer.GuidanceFor | backend/main.py:379-385 | every tier has an entry in the guidance map, and the guidance is that entry |
| Analyzer.GuidanceIdentifiesTier | backend/main.py:379-384 | different tiers get different guidance texts |
| Analyzer.AnalyzeSymptoms | backend/main.py:366-397 | a red-flag result is returned unchanged; otherwise the result carries the calculated tier, the generated causes, the tier's guidance, no red flags, the templated explanation, and is not an emergency; in both cases emergency iff the tier is emergency iff there are red flags, and there are one or two causes in descending probability |
| Analyzer.RedFlagOverridesLowUrgency | backend/main.py:366-373 | abdominal pain with blood in vomit rates low urgency alone, yet the analysis returns the GI-bleeding emergency |
| AiService.LineText | backend/ai_service.py:97-113 | a field contributes text to the prompt iff its value is truthy |
| AiService.PresentAmong | backend/ai_service.py:97-113 | keeps exactly the present fields of a list, in their order |
| AiService.PromptAfterSplit | backend/ai_service.py:93-113 | after the first k conditional appends the prompt is the header followed by the first k fields' contributions |
| AiService.LinesUpToPresent | backend/ai_service.py:97-113 | the contributions of the first k fields are the lines of the present ones among them |
| AiService.PresentFieldsIff | backend/ai_service.py:97-113 | a field's line is in the prompt iff the field is truthy (intensity 0 and empty lists are left out), in the order pain type, intensity, duration, onset, triggers, symptoms |
| AiService.PromptLayout | backend/ai_service.py:93-115 | every prompt is the safety instructions, a blank line, the heading and the region line, then the present fields' lines in order, then the closing sentence |
| AiService.PromptEnds | backend/ai_service.py:93-115 | every prompt starts with the safety instructions and ends with the closing sentence |
| AiService.AIService.constructor | backend/ai_service.py:25-27 | the service keeps the given provider name (default "openai") and the fixed safety instructions |
| AiService.AIService.BuildPrompt | backend/ai_service.py:90-117 | the chain of conditional appends builds exactly the specified prompt |
| AiService.AIService.AnalyzeSymptoms | backend/ai_service.py:68-88 | "openai" and "gemini" get a request carrying the built prompt, which starts with the safety instructions; every other provider name is an error naming it |
| AiService.AIService.ValidateResponse | backend/ai_service.py:189-220 | true iff the lower-cased explanation (absent = "") holds none of the six forbidden phrases and the response has a disclaimer key |
| AiService.ForbiddenPhraseInAnyCase | backend/ai_service.py:200-214 | an explanation holding any spelling of a forbidden phrase whose lower-case form is that phrase is refused |
| AiService.CapitalisedPhraseRejected | backend/ai_service.py:200-214 | "You Have a migraine." is refused |
| AiService.MissingExplanationNeedsOnlyDisclaimer | backend/ai_service.py:200-220 | a response without an explanation passes iff it has a disclaimer; without a disclaimer a response never passes |
| AiService.LoweredExplanationSameVerdict | backend/ai_service.py:200 | lower-casing the explanation beforehand does not change the verdict |
| Text.JoinSnoc | backend/ai_service.py:110-113 | joining with ", " keeps the input order: the last item comes last, after one separator |
| Text.LowerIdempotent | backend/ai_service.py:200 | lower-casing twice is lower-casing once |

## Left out

- The FastAPI application, CORS middleware, the `/` and `/health` endpoints, the exception-to-HTTP-500 wrapper and the server start-up (backend/main.py:8-21, 348-358, 399-403): transport and bootstrapping.
- Request validation by the web framework: the datatypes admit only the enumeration values and field types the framework would accept.
- `ageRange`, `biologicalSex`, `timestamp`, `durationValue` and `onset` of the report in backend/main.py, and the `Onset` enumeration: no rule there reads them.
- Floating point: probabilities are whole percents. `int(p * 100)` equals the percent for each literal used, but not for every float.
- The provider calls and the response parser (backend/ai_service.py:119-187) are placeholders for external services. `AiService.AIService.AnalyzeSymptoms` returns the request it would send, and an error `Result` stands for the raised `ValueError`.
- API keys read from the environment and the demonstration block (backend/ai_service.py:10-11, 224-237).
- Text.Lower: only the case mappings that produce ASCII letters are modelled (A–Z, KELVIN SIGN, LATIN CAPITAL LETTER I WITH DOT ABOVE). The forbidden phrases are ASCII, so the gate's verdict does not depend on the other mappings.
- Dictionary entries present with the value `None`, and values of other types: the symptom dictionary models a missing key as `None`, and the response maps strings to strings. So the model does not capture the text "None" in a prompt, or the error `.lower()` raises on a non-string explanation.
- Causes.SortByProbability: Python sorts the list in place with a stable merge sort. The model sorts a value with a stable insertion sort and proves the result equal to a stable descending sort, so the order is the same but the in-place update is not modelled.
