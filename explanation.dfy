/** The templated explanation text built from the report and the cause list. */
module Explanation {
  import opened Text
  import opened TriageTypes

  // The fixed pieces of the template.
  const LeadPrefix := "Based on your reported symptoms in the "
  const AreaWord := " area "
  const IntensityPrefix := "with an intensity of "
  const IntensitySuffix := "/10, "
  const Intro := "there are several possible explanations to consider:\n\n"
  const BulletMark := "\U{2022} "
  const MatchWord := "% match): "
  const LineEnd := "\n\n"

  /** The closing disclaimer every explanation ends with. */
  const Disclaimer :=
    "\n\U{26A0}\U{FE0F} Important: This information is for educational purposes only. "
    + "It is not a medical diagnosis. Please consult with a healthcare "
    + "professional for proper evaluation and treatment."

  /** The first words, naming the region by its enum value. */
  function Lead(data: SymptomReport): string {
    LeadPrefix + RegionValue(data.bodyRegion) + AreaWord
  }

  /** The intensity clause: present exactly when the intensity (absent = 0) is positive. */
  function IntensityClause(data: SymptomReport): (clause: string)
    ensures clause == "" <==> IntensityOrZero(data) <= 0
  {
    var intensity := IntensityOrZero(data);
    if intensity > 0 then IntensityPrefix + NatToString(intensity) + IntensitySuffix else ""
  }

  /**
   * One bullet for a cause. `int(p * 100)` of each probability literal in
   * the catalogue is the whole percent the model stores.
   */
  function CauseLine(c: PossibleCause): string {
    BulletMark + c.name + " (" + NatToString(c.probability) + MatchWord + c.description + LineEnd
  }

  /** The bullets of `causes`, in list order. */
  function Bullets(causes: seq<PossibleCause>): string {
    if causes == [] then "" else Bullets(causes[..|causes| - 1]) + CauseLine(causes[|causes| - 1])
  }

  /** The text before the bullets. */
  function Opening(data: SymptomReport): string {
    Lead(data) + IntensityClause(data) + Intro
  }

  /**
   * `generate_ai_explanation`: the opening, one bullet per cause in list
   * order, then the disclaimer.
   */
  method GenerateAiExplanation(data: SymptomReport, causes: seq<PossibleCause>) returns (explanation: string)
    ensures explanation == Opening(data) + Bullets(causes) + Disclaimer
    ensures StartsWith(explanation, Lead(data)) && EndsWith(explanation, Disclaimer)
  {
    var regionName := RegionValue(data.bodyRegion);
    var intensity := IntensityOrZero(data);
    explanation := LeadPrefix + regionName + AreaWord;
    if intensity > 0 {
      explanation := explanation + (IntensityPrefix + NatToString(intensity) + IntensitySuffix);
    }
    explanation := explanation + Intro;
    ghost var opening := explanation;
    assert opening == Opening(data);
    assert causes[..0] == [];
    for i := 0 to |causes|
      invariant explanation == opening + Bullets(causes[..i])
    {
      BulletsStep(causes, i);
      AppendAssoc(opening, Bullets(causes[..i]), CauseLine(causes[i]));
      explanation := explanation + CauseLine(causes[i]);
    }
    assert causes[..|causes|] == causes;
    explanation := explanation + Disclaimer;
    ghost var lead := Lead(data);
    assert StartsWith(lead, lead);
    StartsWithAppend(lead, lead, IntensityClause(data));
    StartsWithAppend(lead + IntensityClause(data), lead, Intro);
    StartsWithAppend(opening, lead, Bullets(causes));
    StartsWithAppend(opening + Bullets(causes), lead, Disclaimer);
    EndsWithAppend(opening + Bullets(causes), Disclaimer);
  }

  /** The bullets of the first i + 1 causes extend those of the first i by one line. */
  lemma BulletsStep(causes: seq<PossibleCause>, i: nat)
    requires i < |causes|
    ensures Bullets(causes[..i + 1]) == Bullets(causes[..i]) + CauseLine(causes[i])
  {
    assert causes[..i + 1][..i] == causes[..i];
  }

  /** The bullets of two lists, one after the other, are the bullets of the joined list. */
  lemma {:induction false} BulletsAppend(a: seq<PossibleCause>, b: seq<PossibleCause>)
    ensures Bullets(a + b) == Bullets(a) + Bullets(b)
  {
    if b == [] {
      assert a + b == a;
    } else {
      var init := b[..|b| - 1];
      assert (a + b)[..|a + b| - 1] == a + init;
      BulletsAppend(a, init);
      AppendAssoc(Bullets(a), Bullets(init), CauseLine(b[|b| - 1]));
    }
  }

  /** A character that does not occur in `s` is counted zero times. */
  lemma {:induction false} CountAbsent(s: string, ch: char)
    requires ch !in s
    ensures Count(s, ch) == 0
  {
    if s != [] {
      CountAbsent(s[..|s| - 1], ch);
    }
  }

  /**
   * One bullet per cause: when no name or description contains the bullet
   * character, the bullets hold exactly |causes| of them.
   */
  lemma {:induction false} OneBulletPerCause(causes: seq<PossibleCause>)
    requires forall c :: c in causes ==> '\U{2022}' !in c.name && '\U{2022}' !in c.description
    ensures Count(Bullets(causes), '\U{2022}') == |causes|
  {
    if causes != [] {
      var init, c := causes[..|causes| - 1], causes[|causes| - 1];
      OneBulletPerCause(init);
      var b := '\U{2022}';
      var digits := NatToString(c.probability);
      var rest := c.name + " (" + digits + MatchWord + c.description + LineEnd;
      assert CauseLine(c) == BulletMark + rest;
      assert b !in digits;
      assert b !in rest;
      CountAbsent(rest, b);
      assert Count(BulletMark, b) == 1;
      CountAppend(BulletMark, rest, b);
      CountAppend(Bullets(init), CauseLine(c), b);
    }
  }
}
