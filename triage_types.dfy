/**
 * The data model of the triage engine: the closed enumerations of a symptom
 * report, the report itself, a candidate cause and the analysis result.
 * Probabilities are whole percents (0.8 is 80).
 */
module TriageTypes {
  import opened Wrappers

  datatype BodyRegion =
    | HeadFront | HeadBack | HeadLeft | HeadRight
    | Chest
    | AbdomenUpperLeft | AbdomenUpperRight | AbdomenLowerLeft | AbdomenLowerRight

  datatype PainType = Sharp | Dull | Burning | Pressure | Stabbing | Throbbing | Cramping

  datatype SymptomDuration = Minutes | Hours | Days | Weeks | Months

  datatype Trigger = Movement | Breathing | Eating | Stress | Touch | Rest | NoTrigger

  datatype AssociatedSymptom =
    | Fever | Nausea | Vomiting | Dizziness | ShortnessOfBreath | RadiatingPain
    | Numbness | Weakness | Confusion | VisionChanges | HearingChanges | ChestPain
    | Palpitations | Sweating | Chills | Fatigue | LossOfAppetite | BloodInStool
    | BloodInVomit | SevereHeadache | NeckStiffness

  datatype UrgencyLevel = Low | Medium | High | Emergency

  /** The fields of a symptom report that the engine reads. */
  datatype SymptomReport = SymptomReport(
    bodyRegion: BodyRegion,
    painType: Option<PainType>,
    intensity: Option<int>,
    duration: Option<SymptomDuration>,
    triggers: seq<Trigger>,
    associatedSymptoms: seq<AssociatedSymptom>)

  /** A candidate explanation; `probability` is a percent. */
  datatype PossibleCause = PossibleCause(
    name: string,
    description: string,
    probability: nat,
    matchingSymptoms: seq<string>)

  datatype AnalysisResult = AnalysisResult(
    urgencyLevel: UrgencyLevel,
    possibleCauses: seq<PossibleCause>,
    guidance: string,
    redFlags: seq<string>,
    aiExplanation: string,
    isEmergency: bool)

  predicate IsHead(r: BodyRegion) {
    r in {HeadFront, HeadBack, HeadLeft, HeadRight}
  }

  predicate IsAbdomen(r: BodyRegion) {
    r in {AbdomenUpperLeft, AbdomenUpperRight, AbdomenLowerLeft, AbdomenLowerRight}
  }

  /** The enum's string value, as `bodyRegion.value` gives it. */
  function RegionValue(r: BodyRegion): string {
    match r
    case HeadFront => "headFront"
    case HeadBack => "headBack"
    case HeadLeft => "headLeft"
    case HeadRight => "headRight"
    case Chest => "chest"
    case AbdomenUpperLeft => "abdomenUpperLeft"
    case AbdomenUpperRight => "abdomenUpperRight"
    case AbdomenLowerLeft => "abdomenLowerLeft"
    case AbdomenLowerRight => "abdomenLowerRight"
  }

  /** `data.intensity or 0`: an absent intensity counts as 0. */
  function IntensityOrZero(data: SymptomReport): int {
    match data.intensity
    case None => 0
    case Some(i) => i
  }

  /** `sym in data.associatedSymptoms`. */
  predicate Has(data: SymptomReport, sym: AssociatedSymptom) {
    sym in data.associatedSymptoms
  }

  /** The ordinal position of a tier: low < medium < high < emergency. */
  function Rank(u: UrgencyLevel): nat {
    match u
    case Low => 0
    case Medium => 1
    case High => 2
    case Emergency => 3
  }

  /** Descending order of probability, as `sort(key=probability, reverse=True)` leaves a list. */
  predicate SortedDesc(s: seq<PossibleCause>) {
    forall i, j :: 0 <= i < j < |s| ==> s[i].probability >= s[j].probability
  }
}
