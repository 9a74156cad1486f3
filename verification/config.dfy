/** The production configuration that the estimator reads, and the rate table it prices it with.

    Only the inputs the cost computation actually reads are represented. The form's radio groups
    become closed datatypes; its sliders become the bounds of `ValidConfig`.
 */
module Config {

  /** Output resolution (radio group "1080p" / "4K"). */
  datatype Resolution = FullHD | UltraHD4K

  /** How much of the planning the studio does (radio group L0..L3). */
  datatype PlanningLevel = L0 | L1 | L2 | L3

  /** Animation complexity (radio group camera / exploded / mechanical / physics). */
  datatype Complexity = Camera | Exploded | Mechanical | Physics

  /** Narration recorded for one language: 'none', 'ai' or 'human'. */
  datatype Narration = NoNarration | AINarration | HumanNarration

  /** Counts of models built from scratch, by size S / M / L. */
  datatype ScratchModels = ScratchModels(s: int, m: int, l: int)

  /** Counts of supplied CAD models to convert, by size small / medium / large. */
  datatype CadModels = CadModels(small: int, medium: int, large: int)

  datatype ProductionConfig = ProductionConfig(
    durationSeconds: int,
    resolution: Resolution,
    deliveryWeeks: int,
    planningLevel: PlanningLevel,
    workshops: int,
    conceptVersions: int,
    scratchModels: ScratchModels,
    cadModels: CadModels,
    complexity: Complexity,
    /** Languages in order; a language listed twice is charged twice. */
    languages: seq<string>,
    /** Narration per language; a language with no entry is not narrated. */
    narrationTypes: map<string, Narration>,
    liveAction: bool,
    liveActionDays: int,
    locationScouting: bool
  )

  /** The hourly and unit rates the computation reads (in yen). */
  datatype RateTable = RateTable(
    pm: real,
    planner: real,
    cgGeneralist: real,
    modeler: real,
    animator: real,
    compositor: real,
    /** Per minute of narrated video. */
    narratorAI: real,
    /** Flat fee per narrated language. */
    narratorHuman: real
  )

  predicate NonNegativeRates(rates: RateTable) {
    && rates.pm >= 0.0
    && rates.planner >= 0.0
    && rates.cgGeneralist >= 0.0
    && rates.modeler >= 0.0
    && rates.animator >= 0.0
    && rates.compositor >= 0.0
    && rates.narratorAI >= 0.0
    && rates.narratorHuman >= 0.0
  }

  /** The rate table the form starts with. */
  const DefaultRates := RateTable(9000.0, 9000.0, 8500.0, 8000.0, 8500.0, 7500.0, 500.0, 50000.0)

  /** Duration slider: 15 to 600 seconds in steps of 15. */
  predicate ValidDuration(seconds: int) {
    15 <= seconds <= 600 && seconds % 15 == 0
  }

  /** The ranges the input form lets the user reach. Scratch-model counts have no slider; they
      are only required to be counts. */
  predicate ValidConfig(c: ProductionConfig) {
    && ValidDuration(c.durationSeconds)
    && 4 <= c.deliveryWeeks <= 20
    && 0 <= c.workshops <= 6
    && 1 <= c.conceptVersions <= 5
    && c.scratchModels.s >= 0 && c.scratchModels.m >= 0 && c.scratchModels.l >= 0
    && 0 <= c.cadModels.small <= 10
    && 0 <= c.cadModels.medium <= 10
    && 0 <= c.cadModels.large <= 10
    && 1 <= c.liveActionDays <= 10
  }

  /** The configuration the form starts with. */
  const DefaultConfig := ProductionConfig(
    60, FullHD, 12, L0, 0, 1, ScratchModels(0, 0, 0), CadModels(0, 2, 0), Camera,
    ["ja"], map["ja" := NoNarration], false, 1, false)

  /** The "Basic" preset: it restores the starting values of every field the estimate reads
      except the scratch-model counts, the shooting days and location scouting, which it keeps. */
  function BasicPreset(c: ProductionConfig): ProductionConfig {
    DefaultConfig.(scratchModels := c.scratchModels, liveActionDays := c.liveActionDays,
                   locationScouting := c.locationScouting)
  }

  lemma DefaultConfigIsValid()
    ensures ValidConfig(DefaultConfig)
    ensures NonNegativeRates(DefaultRates)
  {}
}
