/** The application's shared vocabulary: techniques and the per-technique state cell. */
module Types {
  import opened Wrappers
  import opened Js

  /** The closed set of prompting strategies (`AI_TECHNIQUE`). */
  datatype Technique = RapidScan | DeepAnalysis | HealthOptimized

  /** `Object.values(AI_TECHNIQUE)`: every technique, in declaration order. */
  const AllTechniques: seq<Technique> := [RapidScan, DeepAnalysis, HealthOptimized]

  /** The enumeration lists every technique exactly once. */
  lemma AllTechniquesOnce()
    ensures |AllTechniques| == 3
    ensures forall t: Technique :: multiset(AllTechniques)[t] == 1
  {
    forall t: Technique ensures multiset(AllTechniques)[t] == 1 {
      assert AllTechniques == [RapidScan] + [DeepAnalysis] + [HealthOptimized];
      match t
      case RapidScan =>
      case DeepAnalysis =>
      case HealthOptimized =>
    }
  }

  /**
   * What a successful analysis hands back: the object the invoker builds by
   * spreading the parsed response. Its keys are meant to be those of the
   * `AnalysisResult` interface, but nothing checks that they are.
   */
  type AnalysisData = map<string, JsValue>

  /** Keys of the `AnalysisResult` and `MacroNutrients` interfaces that the core reads or writes. */
  const ProcessingTimeKey := "processingTimeMs"
  const ConfidenceKey := "confidenceScore"
  const MacrosKey := "macros"
  const CaloriesKey := "calories"
  const ProteinKey := "protein"
  const CarbsKey := "carbs"
  const FatKey := "fat"

  /** The state cell one technique owns in the result table. */
  datatype TechniqueResult = TechniqueResult(
    technique: Technique,
    techniqueName: string,
    techniqueDescription: string,
    data: Option<AnalysisData>,
    loading: bool,
    error: Option<string>)
}
