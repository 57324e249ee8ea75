/** The technique catalog and the sample images offered to the user. */
module Constants {
  import opened Types

  /** Display data and model name for one technique. */
  datatype TechniqueConfig = TechniqueConfig(name: string, description: string, color: string, model: string)

  const GeminiModel := "gemini-2.5-flash"

  /** `TECHNIQUE_CONFIGS`: an object keyed by technique. */
  const TechniqueConfigs: map<Technique, TechniqueConfig> := map[
    RapidScan := TechniqueConfig(
      "Rapid Visual Scan",
      "Quick estimation based on visual heuristics and dominant features.",
      "var(--chart-2)",
      GeminiModel),
    DeepAnalysis := TechniqueConfig(
      "Chain-of-Thought Analytical",
      "Detailed breakdown of ingredients, density, and cooking methods.",
      "var(--chart-1)",
      GeminiModel),
    HealthOptimized := TechniqueConfig(
      "Clinical Dietitian Review",
      "Conservative estimation focused on nutritional density and hidden calories.",
      "var(--chart-5)",
      GeminiModel)
  ]

  /** `TECHNIQUE_CONFIGS[t]`; defined for every technique (see `CatalogTotal`). */
  function Config(t: Technique): TechniqueConfig
  {
    CatalogTotal();
    TechniqueConfigs[t]
  }

  /** `SAMPLE_IMAGES`. */
  const SampleImages: seq<string> := [
    "https://images.unsplash.com/photo-1546069901-ba9599a7e63c?w=800&q=80",
    "https://images.unsplash.com/photo-1565299624946-b28f40a0ae38?w=800&q=80",
    "https://images.unsplash.com/photo-1565958011703-44f9829ba187?w=800&q=80"
  ]

  /** The catalog has exactly one entry per technique and no other. */
  lemma CatalogTotal()
    ensures forall t: Technique :: t in TechniqueConfigs
    ensures TechniqueConfigs.Keys == set t | t in AllTechniques
    ensures |TechniqueConfigs| == |AllTechniques| == 3
  {
    forall t: Technique ensures t in TechniqueConfigs {
      match t
      case RapidScan =>
      case DeepAnalysis =>
      case HealthOptimized =>
    }
    assert TechniqueConfigs.Keys == {RapidScan, DeepAnalysis, HealthOptimized};
  }

  /** No two techniques share a display name. */
  lemma NamesDistinct()
    ensures forall t: Technique, u: Technique :: t != u ==> Config(t).name != Config(u).name
  {
  }

  /** No two techniques share a display colour. */
  lemma ColorsDistinct()
    ensures forall t: Technique, u: Technique :: t != u ==> Config(t).color != Config(u).color
  {
  }

  /** Every technique runs on the same model. */
  lemma SameModel()
    ensures forall t: Technique :: Config(t).model == "gemini-2.5-flash"
  {
    forall t: Technique ensures Config(t).model == "gemini-2.5-flash" {
      match t
      case RapidScan =>
      case DeepAnalysis =>
      case HealthOptimized =>
    }
  }

  /** There are three distinct sample images. */
  lemma SampleImagesThree()
    ensures |SampleImages| == 3
    ensures forall i, j :: 0 <= i < j < |SampleImages| ==> SampleImages[i] != SampleImages[j]
  {
  }
}
