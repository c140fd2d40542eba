/**
 * The cause generator: candidate causes chosen by body region and pain
 * type, a generic fallback so that the list is never empty, and a stable
 * sort by descending probability.
 */
module Causes {
  import opened Wrappers
  import opened TriageTypes

  // The catalogue of candidate causes (probabilities in percent).
  const TensionHeadache := PossibleCause(
    "Tension Headache",
    "Common type of headache often caused by stress or muscle tension.",
    60,
    ["Head pain", "Throbbing sensation"])

  const Migraine := PossibleCause(
    "Migraine",
    "Severe headache that may be accompanied by sensitivity to light and sound.",
    40,
    ["Head pain", "Throbbing sensation"])

  const MuscleStrain := PossibleCause(
    "Muscle Strain",
    "Chest wall muscle strain from physical activity or poor posture.",
    50,
    ["Chest pressure"])

  const Anxiety := PossibleCause(
    "Anxiety",
    "Anxiety can cause chest tightness and pressure sensations.",
    30,
    ["Chest pressure"])

  const GallbladderIssues := PossibleCause(
    "Gallbladder Issues",
    "Upper right abdominal pain with nausea may indicate gallbladder problems.",
    50,
    ["Upper right abdominal pain", "Nausea"])

  const Appendicitis := PossibleCause(
    "Appendicitis",
    "Lower right abdominal pain may indicate appendicitis, especially if severe.",
    40,
    ["Lower right abdominal pain"])

  const GeneralDiscomfort := PossibleCause(
    "General Discomfort",
    "Various benign causes may lead to discomfort in this area.",
    50,
    ["Pain in selected region"])

  /** Python truthiness of an optional int: present and non-zero. */
  predicate IsTruthy(i: Option<int>) {
    i.Some? && i.value != 0
  }

  /** The causes the region and pain-type rules append, before the fallback. */
  function MatchedCauses(data: SymptomReport): seq<PossibleCause> {
    if IsHead(data.bodyRegion) then
      (if data.painType == Some(Throbbing) then [TensionHeadache, Migraine] else [])
    else if data.bodyRegion == Chest then
      (if data.painType == Some(Pressure) then [MuscleStrain, Anxiety] else [])
    else if data.bodyRegion == AbdomenUpperRight then
      (if Has(data, Nausea) then [GallbladderIssues] else [])
    else if data.bodyRegion == AbdomenLowerRight then
      (if IsTruthy(data.intensity) && data.intensity.value >= 6 then [Appendicitis] else [])
    else
      []
  }

  /** The matched causes, or the single generic cause when none matched. */
  function CandidateCauses(data: SymptomReport): seq<PossibleCause> {
    var matched := MatchedCauses(data);
    if matched == [] then [GeneralDiscomfort] else matched
  }

  /** The list `generate_possible_causes` returns. */
  function PossibleCauses(data: SymptomReport): seq<PossibleCause> {
    SortDesc(CandidateCauses(data))
  }

  // ---------------------------------------------------------------------
  // The stable descending sort

  /**
   * Inserts `c` into `s` just after the last element whose probability is
   * at least `c`'s, so that equal probabilities keep their order.
   */
  function InsertDesc(s: seq<PossibleCause>, c: PossibleCause): seq<PossibleCause> {
    if s == [] || s[|s| - 1].probability >= c.probability then s + [c]
    else InsertDesc(s[..|s| - 1], c) + [s[|s| - 1]]
  }

  /** Insertion sort, element by element from the front. */
  function SortDesc(s: seq<PossibleCause>): seq<PossibleCause> {
    if s == [] then [] else InsertDesc(SortDesc(s[..|s| - 1]), s[|s| - 1])
  }

  /** The elements of `s` whose probability is `p`, in order. */
  function WithProbability(s: seq<PossibleCause>, p: nat): seq<PossibleCause> {
    if s == [] then []
    else WithProbability(s[..|s| - 1], p) + (if s[|s| - 1].probability == p then [s[|s| - 1]] else [])
  }

  /** Inserting keeps every element and adds `c`. */
  lemma {:induction false} InsertDescPermutation(s: seq<PossibleCause>, c: PossibleCause)
    ensures multiset(InsertDesc(s, c)) == multiset(s) + multiset{c}
    ensures |InsertDesc(s, c)| == |s| + 1
  {
    if !(s == [] || s[|s| - 1].probability >= c.probability) {
      var init := s[..|s| - 1];
      assert s == init + [s[|s| - 1]];
      InsertDescPermutation(init, c);
    }
  }

  /** A lower bound on every probability of `s` and of `c` bounds the insertion too. */
  lemma {:induction false} InsertDescBound(s: seq<PossibleCause>, c: PossibleCause, m: nat)
    requires forall i :: 0 <= i < |s| ==> s[i].probability >= m
    requires c.probability >= m
    ensures forall i :: 0 <= i < |InsertDesc(s, c)| ==> InsertDesc(s, c)[i].probability >= m
  {
    if !(s == [] || s[|s| - 1].probability >= c.probability) {
      InsertDescBound(s[..|s| - 1], c, m);
    }
  }

  lemma {:induction false} InsertDescSorted(s: seq<PossibleCause>, c: PossibleCause)
    requires SortedDesc(s)
    ensures SortedDesc(InsertDesc(s, c))
  {
    if !(s == [] || s[|s| - 1].probability >= c.probability) {
      var init, last := s[..|s| - 1], s[|s| - 1];
      InsertDescSorted(init, c);
      InsertDescBound(init, c, last.probability);
    }
  }

  lemma {:induction false} InsertDescStable(s: seq<PossibleCause>, c: PossibleCause, p: nat)
    ensures WithProbability(InsertDesc(s, c), p)
      == WithProbability(s, p) + (if c.probability == p then [c] else [])
  {
    if s == [] || s[|s| - 1].probability >= c.probability {
      assert (s + [c])[..|s|] == s;
    } else {
      var init, last := s[..|s| - 1], s[|s| - 1];
      var t := InsertDesc(init, c);
      assert (t + [last])[..|t|] == t;
      InsertDescStable(init, c, p);
    }
  }

  /** The sort returns a descending permutation of its input. */
  lemma {:induction false} SortDescSorted(s: seq<PossibleCause>)
    ensures SortedDesc(SortDesc(s))
    ensures multiset(SortDesc(s)) == multiset(s)
    ensures |SortDesc(s)| == |s|
  {
    if s != [] {
      var init := s[..|s| - 1];
      assert s == init + [s[|s| - 1]];
      SortDescSorted(init);
      InsertDescSorted(SortDesc(init), s[|s| - 1]);
      InsertDescPermutation(SortDesc(init), s[|s| - 1]);
    }
  }

  /** The sort is stable: causes of equal probability keep their relative order. */
  lemma {:induction false} SortDescStable(s: seq<PossibleCause>, p: nat)
    ensures WithProbability(SortDesc(s), p) == WithProbability(s, p)
  {
    if s != [] {
      var init := s[..|s| - 1];
      SortDescStable(init, p);
      InsertDescStable(SortDesc(init), s[|s| - 1], p);
    }
  }

  /** A list that is already in descending order is left as it is. */
  lemma {:induction false} SortDescOfSorted(s: seq<PossibleCause>)
    requires SortedDesc(s)
    ensures SortDesc(s) == s
  {
    if s != [] {
      var init := s[..|s| - 1];
      assert SortedDesc(init);
      SortDescOfSorted(init);
      assert s == init + [s[|s| - 1]];
    }
  }

  // ---------------------------------------------------------------------
  // The operations

  /**
   * Where `c` goes in `sorted`: scanning from the back, past every cause of
   * strictly lower probability.
   */
  method InsertionPoint(sorted: seq<PossibleCause>, c: PossibleCause) returns (j: nat)
    ensures j <= |sorted|
    ensures InsertDesc(sorted, c) == sorted[..j] + [c] + sorted[j..]
  {
    j := |sorted|;
    assert sorted[..j] == sorted && sorted[j..] == [];
    while j > 0 && sorted[j - 1].probability < c.probability
      invariant 0 <= j <= |sorted|
      invariant InsertDesc(sorted, c) == InsertDesc(sorted[..j], c) + sorted[j..]
    {
      InsertDescShift(sorted, c, j);
      j := j - 1;
    }
    InsertDescStop(sorted, c, j);
  }

  /** One step left: `c` passes an element of lower probability. */
  lemma InsertDescShift(sorted: seq<PossibleCause>, c: PossibleCause, j: nat)
    requires 0 < j <= |sorted| && sorted[j - 1].probability < c.probability
    ensures InsertDesc(sorted[..j], c) + sorted[j..] == InsertDesc(sorted[..j - 1], c) + sorted[j - 1..]
  {
    var s := sorted[..j];
    assert s[..|s| - 1] == sorted[..j - 1];
    assert InsertDesc(s, c) == InsertDesc(sorted[..j - 1], c) + [sorted[j - 1]];
    assert sorted[j - 1..] == [sorted[j - 1]] + sorted[j..];
  }

  /** Where the search stops, `c` goes right after the prefix. */
  lemma InsertDescStop(sorted: seq<PossibleCause>, c: PossibleCause, j: nat)
    requires j <= |sorted| && (j == 0 || sorted[j - 1].probability >= c.probability)
    ensures InsertDesc(sorted[..j], c) + sorted[j..] == sorted[..j] + [c] + sorted[j..]
  {
  }

  /** `causes.sort(key=probability, reverse=True)`, as an insertion sort. */
  method SortByProbability(causes: seq<PossibleCause>) returns (sorted: seq<PossibleCause>)
    ensures sorted == SortDesc(causes)
  {
    sorted := [];
    var i := 0;
    while i < |causes|
      invariant 0 <= i <= |causes|
      invariant sorted == SortDesc(causes[..i])
    {
      var c := causes[i];
      var j := InsertionPoint(sorted, c);
      assert causes[..i + 1][..i] == causes[..i];
      sorted := sorted[..j] + [c] + sorted[j..];
      i := i + 1;
    }
    assert causes[..i] == causes;
  }

  /**
   * `generate_possible_causes`: appends the causes matching the region and
   * pain type, falls back to the generic cause, then sorts. The result has one
   * or two causes, in descending order of probability.
   */
  method GeneratePossibleCauses(data: SymptomReport) returns (causes: seq<PossibleCause>)
    ensures causes == PossibleCauses(data)
    ensures 1 <= |causes| <= 2 && SortedDesc(causes)
    ensures causes == CandidateCauses(data)
  {
    causes := [];
    if IsHead(data.bodyRegion) {
      if data.painType == Some(Throbbing) {
        causes := causes + [TensionHeadache];
        causes := causes + [Migraine];
      }
    } else if data.bodyRegion == Chest {
      if data.painType == Some(Pressure) {
        causes := causes + [MuscleStrain];
        causes := causes + [Anxiety];
      }
    } else if data.bodyRegion == AbdomenUpperRight {
      if Nausea in data.associatedSymptoms {
        causes := causes + [GallbladderIssues];
      }
    } else if data.bodyRegion == AbdomenLowerRight {
      if IsTruthy(data.intensity) && data.intensity.value >= 6 {
        causes := causes + [Appendicitis];
      }
    }
    if causes == [] {
      causes := causes + [GeneralDiscomfort];
    }
    assert causes == CandidateCauses(data);
    causes := SortByProbability(causes);
    PossibleCausesShape(data);
  }

  // ---------------------------------------------------------------------
  // Properties of the generated list

  /**
   * The list is never empty, has at most two causes, is in descending order,
   * and the sort leaves the catalogue order unchanged.
   */
  lemma PossibleCausesShape(data: SymptomReport)
    ensures 1 <= |PossibleCauses(data)| <= 2
    ensures SortedDesc(PossibleCauses(data))
    ensures PossibleCauses(data) == CandidateCauses(data)
  {
    var c := CandidateCauses(data);
    assert SortedDesc(c);
    SortDescOfSorted(c);
  }

  /** Head pain that throbs: Tension Headache (60%) before Migraine (40%). */
  lemma HeadThrobbingCauses(data: SymptomReport)
    requires IsHead(data.bodyRegion) && data.painType == Some(Throbbing)
    ensures PossibleCauses(data) == [TensionHeadache, Migraine]
    ensures PossibleCauses(data)[0].name == "Tension Headache" && PossibleCauses(data)[0].probability == 60
    ensures PossibleCauses(data)[1].name == "Migraine" && PossibleCauses(data)[1].probability == 40
  {
    PossibleCausesShape(data);
  }

  /** Head pain of any other kind: only the generic cause. */
  lemma HeadOtherPainCauses(data: SymptomReport)
    requires IsHead(data.bodyRegion) && data.painType != Some(Throbbing)
    ensures PossibleCauses(data) == [GeneralDiscomfort]
    ensures PossibleCauses(data)[0].name == "General Discomfort" && PossibleCauses(data)[0].probability == 50
  {
    PossibleCausesShape(data);
  }

  /** Chest pressure: Muscle Strain (50%) before Anxiety (30%); otherwise the generic cause. */
  lemma ChestCauses(data: SymptomReport)
    requires data.bodyRegion == Chest
    ensures data.painType == Some(Pressure) ==> PossibleCauses(data) == [MuscleStrain, Anxiety]
    ensures data.painType != Some(Pressure) ==> PossibleCauses(data) == [GeneralDiscomfort]
  {
    PossibleCausesShape(data);
  }

  /** Upper right abdomen: Gallbladder Issues (50%) iff nausea is reported; otherwise the generic cause. */
  lemma GallbladderCauses(data: SymptomReport)
    requires data.bodyRegion == AbdomenUpperRight
    ensures Has(data, Nausea) ==> PossibleCauses(data) == [GallbladderIssues]
    ensures !Has(data, Nausea) ==> PossibleCauses(data) == [GeneralDiscomfort]
  {
    PossibleCausesShape(data);
  }

  /** The upper left and lower left abdomen have no rule: only the generic cause. */
  lemma UnmatchedRegionsFallBack(data: SymptomReport)
    requires data.bodyRegion == AbdomenUpperLeft || data.bodyRegion == AbdomenLowerLeft
    ensures PossibleCauses(data) == [GeneralDiscomfort]
  {
    assert MatchedCauses(data) == [];
    PossibleCausesShape(data);
  }

  /**
   * Lower right abdomen: Appendicitis is listed iff an intensity of at least 6
   * is reported; otherwise the list is the generic cause alone.
   */
  lemma AppendicitisIff(data: SymptomReport)
    requires data.bodyRegion == AbdomenLowerRight
    ensures (exists i :: 0 <= i < |PossibleCauses(data)| && PossibleCauses(data)[i].name == "Appendicitis")
      <==> (data.intensity.Some? && data.intensity.value >= 6)
    ensures !(data.intensity.Some? && data.intensity.value >= 6) ==> PossibleCauses(data) == [GeneralDiscomfort]
  {
    PossibleCausesShape(data);
    var pc := PossibleCauses(data);
    if data.intensity.Some? && data.intensity.value >= 6 {
      assert pc[0].name == "Appendicitis";
    } else {
      assert pc == [GeneralDiscomfort];
      assert |"General Discomfort"| != |"Appendicitis"|;
    }
  }
}
