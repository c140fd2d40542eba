/** The fixed safety instructions of the AI service. */
module SafetyText {
  /** The safety instructions that open every prompt. */
  const SafetyPrompt: string :=
    "\n"
    + "        CRITICAL SAFETY INSTRUCTIONS:\n"
    + "        \n"
    + "        You are an educational health information assistant. You MUST follow these rules:\n"
    + "        \n"
    + "        1. NEVER provide a diagnosis\n"
    + "        2. NEVER recommend specific medications\n"
    + "        3. NEVER provide treatment plans\n"
    + "        4. ALWAYS use probabilistic language (may, might, could, possibly)\n"
    + "        5. ALWAYS include uncertainty in your responses\n"
    + "        6. ALWAYS encourage consulting healthcare professionals\n"
    + "        7. NEVER claim certainty about medical conditions\n"
    + "        8. Focus on education and awareness, not diagnosis\n"
    + "        \n"
    + "        Your role is to:\n"
    + "        - Explain possible causes in educational terms\n"
    + "        - Help users understand when to seek professional care\n"
    + "        - Provide general health information\n"
    + "        - Encourage appropriate medical consultation\n"
    + "        \n"
    + "        Format your response as:\n"
    + "        {\n"
    + "            \"explanation\": \"Educational explanation with probabilistic language\",\n"
    + "            \"possible_causes\": [\n"
    + "                {\n"
    + "                    \"name\": \"Condition name\",\n"
    + "                    \"description\": \"Educational description\",\n"
    + "                    \"probability\": 0.0-1.0,\n"
    + "                    \"matching_symptoms\": [\"symptom1\", \"symptom2\"]\n"
    + "                }\n"
    + "            ],\n"
    + "            \"disclaimer\": \"This is not medical advice...\"\n"
    + "        }\n"
    + "        "
}

/**
 * The AI service wrapper: the prompt it would send to a provider, the
 * dispatch on the provider name and the safety gate for provider responses.
 */
module AiService {
  import opened Wrappers
  import opened Text
  import opened SafetyText

  /**
   * The symptom dictionary the service receives; None stands for a key that
   * is absent.
   */
  datatype SymptomData = SymptomData(
    bodyRegion: Option<string>,
    painType: Option<string>,
    intensity: Option<int>,
    duration: Option<string>,
    durationValue: Option<int>,
    onset: Option<string>,
    triggers: Option<seq<string>>,
    associatedSymptoms: Option<seq<string>>)

  /** The providers the service can talk to. */
  datatype Backend = OpenAi | Gemini

  /** What the service hands to a provider: which one, and the prompt. */
  datatype ProviderRequest = ProviderRequest(backend: Backend, prompt: string)

  const SymptomHeading := "SYMPTOM INFORMATION:\n"

  /** The sentence every prompt ends with. */
  const PromptClosing := "\nProvide an educational explanation of possible causes with appropriate uncertainty."

  /** The optional lines of the prompt, in the order they are written. */
  datatype PromptField =
    | PainTypeField | IntensityField | DurationField | OnsetField | TriggersField | SymptomsField

  const FieldOrder: seq<PromptField> :=
    [PainTypeField, IntensityField, DurationField, OnsetField, TriggersField, SymptomsField]

  /** Position of a field in `FieldOrder`. */
  function FieldIndex(f: PromptField): nat {
    match f
    case PainTypeField => 0
    case IntensityField => 1
    case DurationField => 2
    case OnsetField => 3
    case TriggersField => 4
    case SymptomsField => 5
  }

  // Python truthiness of `dict.get(key)`: absent, "", 0 and [] are false.
  predicate TruthyText(v: Option<string>) { v.Some? && v.value != "" }
  predicate TruthyNumber(v: Option<int>) { v.Some? && v.value != 0 }
  predicate TruthyList(v: Option<seq<string>>) { v.Some? && v.value != [] }

  /** The field's line is written exactly when this holds. */
  predicate Present(f: PromptField, data: SymptomData) {
    match f
    case PainTypeField => TruthyText(data.painType)
    case IntensityField => TruthyNumber(data.intensity)
    case DurationField => TruthyText(data.duration)
    case OnsetField => TruthyText(data.onset)
    case TriggersField => TruthyList(data.triggers)
    case SymptomsField => TruthyList(data.associatedSymptoms)
  }

  /** The line written for a present field. */
  function FieldLine(f: PromptField, data: SymptomData): string
    requires Present(f, data)
  {
    match f
    case PainTypeField => "Pain Type: " + data.painType.value + "\n"
    case IntensityField => "Pain Intensity: " + IntToString(data.intensity.value) + "/10\n"
    case DurationField =>
      "Duration: " + (if data.durationValue.Some? then IntToString(data.durationValue.value) else "")
      + " " + data.duration.value + "\n"
    case OnsetField => "Onset: " + data.onset.value + "\n"
    case TriggersField => "Triggers: " + Join(data.triggers.value, ", ") + "\n"
    case SymptomsField => "Associated Symptoms: " + Join(data.associatedSymptoms.value, ", ") + "\n"
  }

  /** The text a field contributes: its line when present, nothing otherwise. */
  function LineText(f: PromptField, data: SymptomData): (t: string)
    ensures t != "" <==> Present(f, data)
  {
    if Present(f, data) then FieldLine(f, data) else ""
  }

  /** The region line; a missing region reads "Unknown". */
  function RegionLine(data: SymptomData): string {
    "Body Region: " + (if data.bodyRegion.Some? then data.bodyRegion.value else "Unknown") + "\n"
  }

  /** Everything before the optional lines. */
  function PromptHeader(safety: string, data: SymptomData): string {
    safety + "\n\n" + SymptomHeading + RegionLine(data)
  }

  /**
   * The prompt after the header and the first `k` optional steps: each step
   * appends its field's line when the field is present.
   */
  function PromptAfter(k: nat, safety: string, data: SymptomData): string
    requires k <= |FieldOrder|
  {
    if k == 0 then PromptHeader(safety, data)
    else
      var before := PromptAfter(k - 1, safety, data);
      var f := FieldOrder[k - 1];
      if Present(f, data) then before + FieldLine(f, data) else before
  }

  /** The prompt built for `data` under the safety instructions `safety`. */
  function PromptFor(safety: string, data: SymptomData): string {
    PromptAfter(|FieldOrder|, safety, data) + PromptClosing
  }

  /** The fields listed in strictly increasing position. */
  predicate InFieldOrder(fs: seq<PromptField>) {
    forall i, j :: 0 <= i < j < |fs| ==> FieldIndex(fs[i]) < FieldIndex(fs[j])
  }

  /** The fields among `fs` that are present, keeping the order of `fs`. */
  function PresentAmong(fs: seq<PromptField>, data: SymptomData): (r: seq<PromptField>)
    ensures forall f :: f in r <==> f in fs && Present(f, data)
    ensures InFieldOrder(fs) ==> InFieldOrder(r)
  {
    if fs == [] then []
    else
      var init, last := fs[..|fs| - 1], fs[|fs| - 1];
      var rest := PresentAmong(init, data);
      if Present(last, data) then
        assert InFieldOrder(fs) ==> forall f :: f in rest ==> FieldIndex(f) < FieldIndex(last);
        rest + [last]
      else rest
  }

  /** The lines of fields that are all present, one after the other. */
  function FieldLines(fs: seq<PromptField>, data: SymptomData): string
    requires forall f :: f in fs ==> Present(f, data)
  {
    if fs == [] then "" else FieldLines(fs[..|fs| - 1], data) + FieldLine(fs[|fs| - 1], data)
  }

  /** The fields whose lines the prompt for `data` holds, in prompt order. */
  function PresentFields(data: SymptomData): seq<PromptField> {
    PresentAmong(FieldOrder, data)
  }

  /** What the first `k` fields of `FieldOrder` contribute, one after the other. */
  function LinesUpTo(k: nat, data: SymptomData): string
    requires k <= |FieldOrder|
  {
    if k == 0 then "" else LinesUpTo(k - 1, data) + LineText(FieldOrder[k - 1], data)
  }

  /** After `k` steps the prompt is the header followed by the first `k` contributions. */
  lemma {:induction false} PromptAfterSplit(k: nat, safety: string, data: SymptomData)
    requires k <= |FieldOrder|
    ensures PromptAfter(k, safety, data) == PromptHeader(safety, data) + LinesUpTo(k, data)
  {
    if k > 0 {
      PromptAfterSplit(k - 1, safety, data);
      AppendAssoc(PromptHeader(safety, data), LinesUpTo(k - 1, data), LineText(FieldOrder[k - 1], data));
    }
  }

  /** The first `k` contributions are the lines of the present fields among the first `k`. */
  lemma {:induction false} LinesUpToPresent(k: nat, data: SymptomData)
    requires k <= |FieldOrder|
    ensures LinesUpTo(k, data) == FieldLines(PresentAmong(FieldOrder[..k], data), data)
  {
    if k > 0 {
      LinesUpToPresent(k - 1, data);
      var fs := FieldOrder[..k];
      assert fs[..|fs| - 1] == FieldOrder[..k - 1];
      var rest := PresentAmong(FieldOrder[..k - 1], data);
      if Present(fs[k - 1], data) {
        assert (rest + [fs[k - 1]])[..|rest|] == rest;
      }
    }
  }

  /**
   * A field's line is in the prompt exactly when the field is truthy (so an
   * intensity of 0 and empty lists are left out), and the lines keep the
   * order pain type, intensity, duration, onset, triggers, symptoms.
   */
  lemma PresentFieldsIff(data: SymptomData, f: PromptField)
    ensures f in PresentFields(data) <==> Present(f, data)
    ensures InFieldOrder(PresentFields(data))
  {
  }

  /**
   * The layout of every prompt: the safety instructions, a blank line, the
   * heading and the region line; then the lines of the present fields in
   * order; then the closing sentence.
   */
  lemma PromptLayout(safety: string, data: SymptomData)
    ensures PromptFor(safety, data)
      == PromptHeader(safety, data) + FieldLines(PresentFields(data), data) + PromptClosing
  {
    PromptAfterSplit(|FieldOrder|, safety, data);
    LinesUpToPresent(|FieldOrder|, data);
    assert FieldOrder[..|FieldOrder|] == FieldOrder;
  }

  /**
   * So every prompt starts with the safety instructions and ends with the
   * closing sentence.
   */
  lemma PromptEnds(safety: string, data: SymptomData)
    ensures StartsWith(PromptFor(safety, data), safety)
    ensures EndsWith(PromptFor(safety, data), PromptClosing)
  {
    PromptLayout(safety, data);
    var lines := FieldLines(PresentFields(data), data);
    assert StartsWith(safety, safety);
    StartsWithAppend(safety, safety, "\n\n");
    StartsWithAppend(safety + "\n\n", safety, SymptomHeading);
    StartsWithAppend(safety + "\n\n" + SymptomHeading, safety, RegionLine(data));
    StartsWithAppend(PromptHeader(safety, data), safety, lines);
    StartsWithAppend(PromptHeader(safety, data) + lines, safety, PromptClosing);
    EndsWithAppend(PromptHeader(safety, data) + lines, PromptClosing);
  }

  /** The forbidden phrases the safety gate looks for, in lower case. */
  const ForbiddenPhrases: seq<string> := [
    "you have",
    "you are diagnosed",
    "this is definitely",
    "you need to take",
    "take this medication",
    "the diagnosis is"
  ]

  /** The lower-cased explanation of a response; a missing one reads "". */
  function ExplanationText(response: map<string, string>): string {
    Lower(if "explanation" in response then response["explanation"] else "")
  }

  /** A response passes the gate: no forbidden phrase and a disclaimer key. */
  predicate SafeResponse(response: map<string, string>) {
    && (forall k :: 0 <= k < |ForbiddenPhrases| ==> !Contains(ExplanationText(response), ForbiddenPhrases[k]))
    && "disclaimer" in response
  }

  /**
   * The gate ignores case: an explanation holding any spelling of a
   * forbidden phrase whose lower-case form is that phrase is refused.
   */
  lemma {:induction false} ForbiddenPhraseInAnyCase(
    response: map<string, string>, before: string, phrase: string, after: string, k: nat)
    requires "explanation" in response && response["explanation"] == before + phrase + after
    requires k < |ForbiddenPhrases| && Lower(phrase) == ForbiddenPhrases[k]
    ensures !SafeResponse(response)
  {
    LowerAppend(before + phrase, after);
    LowerAppend(before, phrase);
    ContainsInfix(Lower(before), ForbiddenPhrases[k], Lower(after));
  }

  /** "You Have" is caught although the phrase list is lower case. */
  lemma CapitalisedPhraseRejected(response: map<string, string>)
    requires "explanation" in response && response["explanation"] == "You Have a migraine."
    ensures !SafeResponse(response)
  {
    assert Lower("You Have") == ForbiddenPhrases[0];
    assert "You Have a migraine." == "" + "You Have" + " a migraine.";
    ForbiddenPhraseInAnyCase(response, "", "You Have", " a migraine.", 0);
  }

  /**
   * A response without an explanation passes the phrase check, so it is
   * accepted exactly when it has a disclaimer; one without a disclaimer is
   * refused whatever its explanation.
   */
  lemma MissingExplanationNeedsOnlyDisclaimer(response: map<string, string>)
    ensures "explanation" !in response ==> (SafeResponse(response) <==> "disclaimer" in response)
    ensures "disclaimer" !in response ==> !SafeResponse(response)
  {
  }

  /** Lower-casing the explanation beforehand does not change the verdict. */
  lemma LoweredExplanationSameVerdict(response: map<string, string>)
    requires "explanation" in response
    ensures SafeResponse(response["explanation" := Lower(response["explanation"])]) == SafeResponse(response)
  {
    LowerIdempotent(response["explanation"]);
  }

  /** The service: a provider name and the safety instructions, both fixed at creation. */
  class AIService {
    const provider: string
    const safetyPrompt: string

    constructor(provider: string := "openai")
      ensures this.provider == provider && safetyPrompt == SafetyPrompt
    {
      this.provider := provider;
      safetyPrompt := SafetyPrompt;
    }

    /**
     * `_build_prompt`: the header, then a line for each truthy field in the
     * fixed order, then the closing sentence.
     */
    method BuildPrompt(data: SymptomData) returns (prompt: string)
      ensures prompt == PromptFor(safetyPrompt, data)
    {
      prompt := safetyPrompt + "\n\n";
      prompt := prompt + SymptomHeading;
      prompt := prompt + ("Body Region: " + (if data.bodyRegion.Some? then data.bodyRegion.value else "Unknown") + "\n");
      assert prompt == PromptAfter(0, safetyPrompt, data);
      if data.painType.Some? && data.painType.value != "" {
        prompt := prompt + ("Pain Type: " + data.painType.value + "\n");
      }
      assert prompt == PromptAfter(1, safetyPrompt, data);
      if data.intensity.Some? && data.intensity.value != 0 {
        prompt := prompt + ("Pain Intensity: " + IntToString(data.intensity.value) + "/10\n");
      }
      assert prompt == PromptAfter(2, safetyPrompt, data);
      if data.duration.Some? && data.duration.value != "" {
        var durationValue := if data.durationValue.Some? then IntToString(data.durationValue.value) else "";
        prompt := prompt + ("Duration: " + durationValue + " " + data.duration.value + "\n");
      }
      assert prompt == PromptAfter(3, safetyPrompt, data);
      if data.onset.Some? && data.onset.value != "" {
        prompt := prompt + ("Onset: " + data.onset.value + "\n");
      }
      assert prompt == PromptAfter(4, safetyPrompt, data);
      if data.triggers.Some? && data.triggers.value != [] {
        prompt := prompt + ("Triggers: " + Join(data.triggers.value, ", ") + "\n");
      }
      assert prompt == PromptAfter(5, safetyPrompt, data);
      if data.associatedSymptoms.Some? && data.associatedSymptoms.value != [] {
        prompt := prompt + ("Associated Symptoms: " + Join(data.associatedSymptoms.value, ", ") + "\n");
      }
      assert prompt == PromptAfter(6, safetyPrompt, data);
      prompt := prompt + PromptClosing;
    }

    /**
     * `analyze_symptoms`: "openai" and "gemini" get the built prompt; any
     * other provider name is an error naming it. The provider call itself
     * is not modelled, so the request is the result.
     */
    method AnalyzeSymptoms(data: SymptomData) returns (r: Result<ProviderRequest, string>)
      ensures provider == "openai" ==> r == Success(ProviderRequest(OpenAi, PromptFor(safetyPrompt, data)))
      ensures provider == "gemini" ==> r == Success(ProviderRequest(Gemini, PromptFor(safetyPrompt, data)))
      ensures provider != "openai" && provider != "gemini" ==>
        r == Failure("Unsupported AI provider: " + provider)
      ensures r.Success? ==> StartsWith(r.value.prompt, safetyPrompt)
    {
      var prompt := BuildPrompt(data);
      PromptEnds(safetyPrompt, data);
      if provider == "openai" {
        r := Success(ProviderRequest(OpenAi, prompt));
      } else if provider == "gemini" {
        r := Success(ProviderRequest(Gemini, prompt));
      } else {
        r := Failure("Unsupported AI provider: " + provider);
      }
    }

    /**
     * `validate_response`: false at the first forbidden phrase found in the
     * lower-cased explanation, false when there is no disclaimer, true
     * otherwise.
     */
    method ValidateResponse(response: map<string, string>) returns (ok: bool)
      ensures ok <==> SafeResponse(response)
    {
      var explanation := Lower(if "explanation" in response then response["explanation"] else "");
      for i := 0 to |ForbiddenPhrases|
        invariant forall k :: 0 <= k < i ==> !Contains(explanation, ForbiddenPhrases[k])
      {
        if Contains(explanation, ForbiddenPhrases[i]) {
          return false;
        }
      }
      if "disclaimer" !in response {
        return false;
      }
      return true;
    }
  }
}
