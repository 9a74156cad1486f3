/** The seven category costs, before the rush multiplier. Each is a sum of hours times a rate. */
module Categories {
  import opened Config
  import opened Derived

  datatype Category = Planning | Modeling | Animation | Rendering | Editing | Language | LiveAction

  /** One amount per category: the pre-rush costs, or the rush-adjusted breakdown. */
  datatype CategoryCosts = CategoryCosts(
    planning: real,
    modeling: real,
    animation: real,
    rendering: real,
    editing: real,
    language: real,
    liveAction: real
  ) {
    function Get(k: Category): real {
      match k
      case Planning => planning
      case Modeling => modeling
      case Animation => animation
      case Rendering => rendering
      case Editing => editing
      case Language => language
      case LiveAction => liveAction
    }

    function Sum(): real {
      planning + modeling + animation + rendering + editing + language + liveAction
    }
  }

  /** Every category of `a` costs at most the same category of `b`. */
  predicate NoDearer(a: CategoryCosts, b: CategoryCosts) {
    forall k :: a.Get(k) <= b.Get(k)
  }

  lemma NoDearerSum(a: CategoryCosts, b: CategoryCosts)
    requires NoDearer(a, b)
    ensures a.Sum() <= b.Sum()
  {
    assert a.Get(Planning) <= b.Get(Planning);
    assert a.Get(Modeling) <= b.Get(Modeling);
    assert a.Get(Animation) <= b.Get(Animation);
    assert a.Get(Rendering) <= b.Get(Rendering);
    assert a.Get(Editing) <= b.Get(Editing);
    assert a.Get(Language) <= b.Get(Language);
    assert a.Get(LiveAction) <= b.Get(LiveAction);
  }

  // ---------------------------------------------------------------- planning

  /** Base planning hours for each planning level. */
  function PlanningHours(level: PlanningLevel): int {
    match level
    case L0 => 8
    case L1 => 24
    case L2 => 48
    case L3 => 80
  }

  /** Base hours, 3 hours per workshop and 11 hours per concept beyond the first, all at the
      planner's rate. */
  function PlanningCost(c: ProductionConfig, rates: RateTable): real {
    PlanningHours(c.planningLevel) as real * rates.planner
    + (c.workshops * 3) as real * rates.planner
    + ((c.conceptVersions - 1) * 11) as real * rates.planner
  }

  // ---------------------------------------------------------------- modeling

  /** Scratch models take 8 / 20 / 48 hours and CAD conversions 6 / 12 / 28 hours by size, all
      at the modeler's rate. */
  function ModelingCost(c: ProductionConfig, rates: RateTable): real {
    (c.scratchModels.s * 8) as real * rates.modeler
    + (c.scratchModels.m * 20) as real * rates.modeler
    + (c.scratchModels.l * 48) as real * rates.modeler
    + (c.cadModels.small * 6) as real * rates.modeler
    + (c.cadModels.medium * 12) as real * rates.modeler
    + (c.cadModels.large * 28) as real * rates.modeler
  }

  /** Total modeling hours, the independent reading of the modeling terms. */
  function ModelHours(c: ProductionConfig): int {
    8 * c.scratchModels.s + 20 * c.scratchModels.m + 48 * c.scratchModels.l
    + 6 * c.cadModels.small + 12 * c.cadModels.medium + 28 * c.cadModels.large
  }

  predicate NoModels(c: ProductionConfig) {
    && c.scratchModels == ScratchModels(0, 0, 0)
    && c.cadModels == CadModels(0, 0, 0)
  }

  predicate ModelCountsNonNegative(c: ProductionConfig) {
    && c.scratchModels.s >= 0 && c.scratchModels.m >= 0 && c.scratchModels.l >= 0
    && c.cadModels.small >= 0 && c.cadModels.medium >= 0 && c.cadModels.large >= 0
  }

  /** The modeling cost is the modeler's rate times the total modeling hours. */
  lemma ModelingCostIsHours(c: ProductionConfig, rates: RateTable)
    ensures ModelingCost(c, rates) == ModelHours(c) as real * rates.modeler
  {}

  /** Building on `ModelingCostIsHours`: the modeling cost is zero without models, and with
      non-negative counts and a positive rate it is zero only without models. */
  lemma ModelingCostByHours(c: ProductionConfig, rates: RateTable)
    ensures NoModels(c) ==> ModelingCost(c, rates) == 0.0
    ensures ModelCountsNonNegative(c) && rates.modeler > 0.0 ==>
              (ModelingCost(c, rates) == 0.0 <==> NoModels(c))
  {
    var h := ModelHours(c) as real;
    var m := rates.modeler;
    ModelingCostIsHours(c, rates);
    if ModelCountsNonNegative(c) && m > 0.0 && !NoModels(c) {
      assert ModelHours(c) >= 6;
      MulPositive(h, m);
    }
  }

  // ---------------------------------------------------------------- animation and rendering

  /** Four animator hours per shot. */
  function AnimationCost(shots: int, rates: RateTable): real {
    (shots * 4) as real * rates.animator
  }

  function ResolutionMultiplier(r: Resolution): real {
    if r == UltraHD4K then 1.6 else 1.0
  }

  /** Two CG-generalist hours per shot, 1.6 times dearer in 4K. */
  function RenderingCost(shots: int, resolution: Resolution, rates: RateTable): real {
    (shots * 2) as real * rates.cgGeneralist * ResolutionMultiplier(resolution)
  }

  lemma RenderingIn4K(shots: int, rates: RateTable)
    ensures RenderingCost(shots, UltraHD4K, rates) == 1.6 * RenderingCost(shots, FullHD, rates)
    ensures RenderingCost(shots, FullHD, rates) == (2 * shots) as real * rates.cgGeneralist
  {}

  /** A more complex animation never has fewer shots. */
  lemma ShotsFollowComplexity(seconds: int, c: Complexity, c': Complexity)
    requires seconds >= 0 && ShotsPerMinute(c) <= ShotsPerMinute(c')
    ensures Shots(seconds, c) <= Shots(seconds, c')
  {
    var m := Minutes(seconds);
    var k := ShotsPerMinute(c) as real;
    var k' := ShotsPerMinute(c') as real;
    MulNonNegative(m, k' - k);
    assert m * k <= m * k';
    CeilMonotone(m * k, m * k');
  }

  /** More shots never cost less to animate or to render, at non-negative rates. */
  lemma ShotCostsFollowShots(shots: int, shots': int, resolution: Resolution, rates: RateTable)
    requires shots <= shots' && rates.animator >= 0.0 && rates.cgGeneralist >= 0.0
    ensures AnimationCost(shots, rates) <= AnimationCost(shots', rates)
    ensures RenderingCost(shots, resolution, rates) <= RenderingCost(shots', resolution, rates)
  {
    MulNonNegative(((shots' - shots) * 4) as real, rates.animator);
    MulNonNegative(((shots' - shots) * 2) as real, rates.cgGeneralist);
    MulNonNegative(((shots' - shots) * 2) as real * rates.cgGeneralist,
                   ResolutionMultiplier(resolution));
  }

  // ---------------------------------------------------------------- editing

  /** Two compositor hours per minute of video. */
  function EditingCost(minutes: real, rates: RateTable): real {
    minutes * 2.0 * rates.compositor
  }

  /** Editing is charged per minute: two videos cost what their combined length costs, and a
      longer video never costs less to edit. */
  lemma EditingByLength(seconds: int, seconds': int, rates: RateTable)
    ensures EditingCost(Minutes(seconds + seconds'), rates)
            == EditingCost(Minutes(seconds), rates) + EditingCost(Minutes(seconds'), rates)
    ensures seconds <= seconds' && rates.compositor >= 0.0 ==>
              EditingCost(Minutes(seconds), rates) <= EditingCost(Minutes(seconds'), rates)
  {
    if seconds <= seconds' && rates.compositor >= 0.0 {
      MulNonNegative(Minutes(seconds' - seconds) * 2.0, rates.compositor);
      assert Minutes(seconds') == Minutes(seconds) + Minutes(seconds' - seconds);
    }
  }

  // ---------------------------------------------------------------- language

  /** The language has an entry in the narration map and that entry is `kind`. */
  predicate NarratedAs(types: map<string, Narration>, lang: string, kind: Narration) {
    lang in types && types[lang] == kind
  }

  /** AI narration is billed per minute, human narration at a flat fee, anything else is free. */
  function NarrationCharge(types: map<string, Narration>, lang: string, minutes: real,
                           rates: RateTable): real
  {
    if NarratedAs(types, lang, AINarration) then minutes * rates.narratorAI
    else if NarratedAs(types, lang, HumanNarration) then rates.narratorHuman
    else 0.0
  }

  /** The narration charges of all listed languages, accumulated left to right. */
  function LanguageCost(langs: seq<string>, types: map<string, Narration>, minutes: real,
                        rates: RateTable): real
  {
    if |langs| == 0 then 0.0
    else LanguageCost(langs[..|langs| - 1], types, minutes, rates)
         + NarrationCharge(types, langs[|langs| - 1], minutes, rates)
  }

  /** How many listed languages (counting repeats) are narrated as `kind`, counted from the
      front of the list. */
  function CountNarrated(langs: seq<string>, types: map<string, Narration>, kind: Narration): nat {
    if |langs| == 0 then 0
    else (if NarratedAs(types, langs[0], kind) then 1 else 0) + CountNarrated(langs[1..], types, kind)
  }

  lemma {:induction false} CountNarratedSnoc(langs: seq<string>, types: map<string, Narration>,
                                             kind: Narration)
    requires |langs| > 0
    ensures CountNarrated(langs, types, kind)
            == CountNarrated(langs[..|langs| - 1], types, kind)
               + (if NarratedAs(types, langs[|langs| - 1], kind) then 1 else 0)
    decreases |langs|
  {
    if |langs| > 1 {
      CountNarratedSnoc(langs[1..], types, kind);
      assert langs[1..][..|langs[1..]| - 1] == langs[..|langs| - 1][1..];
    }
  }

  /** `n` copies of the amount `p`, added one at a time. */
  function Times(n: nat, p: real): real {
    if n == 0 then 0.0 else Times(n - 1, p) + p
  }

  /** The narration charges of a language list, one AI charge per AI-narrated language and
      one human fee per human-narrated language. */
  function ChargedByCounts(langs: seq<string>, types: map<string, Narration>, perAI: real,
                           fee: real): real
  {
    Times(CountNarrated(langs, types, AINarration), perAI)
    + Times(CountNarrated(langs, types, HumanNarration), fee)
  }

  /** The language cost is one AI charge (minutes times the AI rate) per AI-narrated language
      plus one human fee per human-narrated language; languages narrated 'none' or absent from
      the narration map add nothing. */
  lemma {:induction false} LanguageCostByCounts(langs: seq<string>, types: map<string, Narration>,
                                                minutes: real, rates: RateTable)
    ensures LanguageCost(langs, types, minutes, rates)
            == ChargedByCounts(langs, types, minutes * rates.narratorAI, rates.narratorHuman)
    decreases |langs|
  {
    if |langs| > 0 {
      LanguageCostByCounts(langs[..|langs| - 1], types, minutes, rates);
      CountNarratedSnoc(langs, types, AINarration);
      CountNarratedSnoc(langs, types, HumanNarration);
    }
  }

  /** Listing a language that is not narrated, anywhere in the list, leaves the cost unchanged. */
  lemma {:induction false} UnnarratedLanguageIsFree(before: seq<string>, lang: string,
                                                    after: seq<string>,
                                                    types: map<string, Narration>,
                                                    minutes: real, rates: RateTable)
    requires !NarratedAs(types, lang, AINarration) && !NarratedAs(types, lang, HumanNarration)
    ensures LanguageCost(before + [lang] + after, types, minutes, rates)
            == LanguageCost(before + after, types, minutes, rates)
    decreases |after|
  {
    if |after| == 0 {
      assert before + [lang] + after == before + [lang];
      assert (before + [lang])[..|before|] == before;
      assert before + after == before;
    } else {
      var last := after[|after| - 1];
      var rest := after[..|after| - 1];
      UnnarratedLanguageIsFree(before, lang, rest, types, minutes, rates);
      assert (before + [lang] + after)[..|before + [lang] + after| - 1] == before + [lang] + rest;
      assert (before + after)[..|before + after| - 1] == before + rest;
    }
  }

  // ---------------------------------------------------------------- live action

  /** Only when shooting live action: eight hours a day of a project manager and two CG
      generalists, plus six hours of project manager and planner for location scouting. */
  function LiveActionCost(c: ProductionConfig, rates: RateTable): real {
    if c.liveAction then
      (c.liveActionDays * 8) as real * (rates.pm + rates.cgGeneralist * 2.0)
      + (if c.locationScouting then 6.0 * (rates.pm + rates.planner) else 0.0)
    else 0.0
  }

  /** Without live action the category is free whatever the days or scouting say; with it,
      scouting adds exactly six hours of project manager and planner. */
  lemma LiveActionGated(c: ProductionConfig, rates: RateTable)
    ensures !c.liveAction ==> LiveActionCost(c, rates) == 0.0
    ensures !c.liveAction ==> forall days: int, scouting: bool ::
              LiveActionCost(c.(liveActionDays := days, locationScouting := scouting), rates) == 0.0
    ensures c.liveAction ==>
              LiveActionCost(c.(locationScouting := true), rates)
              == LiveActionCost(c.(locationScouting := false), rates) + 6.0 * (rates.pm + rates.planner)
  {}

  // ---------------------------------------------------------------- all categories

  /** The pre-rush cost of every category for one configuration. */
  function Costs(c: ProductionConfig, rates: RateTable): CategoryCosts {
    var minutes := Minutes(c.durationSeconds);
    var shots := Shots(c.durationSeconds, c.complexity);
    CategoryCosts(
      PlanningCost(c, rates),
      ModelingCost(c, rates),
      AnimationCost(shots, rates),
      RenderingCost(shots, c.resolution, rates),
      EditingCost(minutes, rates),
      LanguageCost(c.languages, c.narrationTypes, minutes, rates),
      LiveActionCost(c, rates))
  }

  lemma MulNonNegative(a: real, b: real)
    requires a >= 0.0 && b >= 0.0
    ensures a * b >= 0.0
  {}

  lemma MulPositive(a: real, b: real)
    requires a > 0.0 && b > 0.0
    ensures a * b > 0.0
  {}

  lemma {:induction false} TimesNonNegative(n: nat, p: real)
    requires p >= 0.0
    ensures Times(n, p) >= 0.0
  {
    if n > 0 {
      TimesNonNegative(n - 1, p);
    }
  }

  lemma PlanningNonNegative(c: ProductionConfig, rates: RateTable)
    requires c.workshops >= 0 && c.conceptVersions >= 1 && rates.planner >= 0.0
    ensures PlanningCost(c, rates) >= 0.0
  {
    MulNonNegative(PlanningHours(c.planningLevel) as real, rates.planner);
    MulNonNegative((c.workshops * 3) as real, rates.planner);
    MulNonNegative(((c.conceptVersions - 1) * 11) as real, rates.planner);
  }

  lemma ShotCostsNonNegative(shots: int, resolution: Resolution, rates: RateTable)
    requires shots >= 0 && rates.animator >= 0.0 && rates.cgGeneralist >= 0.0
    ensures AnimationCost(shots, rates) >= 0.0
    ensures RenderingCost(shots, resolution, rates) >= 0.0
  {
    MulNonNegative((shots * 4) as real, rates.animator);
    MulNonNegative((shots * 2) as real, rates.cgGeneralist);
    MulNonNegative((shots * 2) as real * rates.cgGeneralist, ResolutionMultiplier(resolution));
  }

  lemma LiveActionNonNegative(c: ProductionConfig, rates: RateTable)
    requires c.liveActionDays >= 0 && rates.pm >= 0.0 && rates.cgGeneralist >= 0.0
    requires rates.planner >= 0.0
    ensures LiveActionCost(c, rates) >= 0.0
  {
    MulNonNegative((c.liveActionDays * 8) as real, rates.pm + rates.cgGeneralist * 2.0);
  }

  lemma ModelingNonNegative(c: ProductionConfig, rates: RateTable)
    requires ModelCountsNonNegative(c) && rates.modeler >= 0.0
    ensures ModelingCost(c, rates) >= 0.0
  {
    ModelingCostIsHours(c, rates);
    MulNonNegative(ModelHours(c) as real, rates.modeler);
  }

  lemma ShotsNonNegative(seconds: int, c: Complexity)
    requires seconds >= 0
    ensures Shots(seconds, c) >= 0
  {
    MulNonNegative(Minutes(seconds), ShotsPerMinute(c) as real);
  }

  lemma EditingNonNegative(seconds: int, rates: RateTable)
    requires seconds >= 0 && rates.compositor >= 0.0
    ensures EditingCost(Minutes(seconds), rates) >= 0.0
  {
    MulNonNegative(Minutes(seconds) * 2.0, rates.compositor);
  }

  lemma LanguageNonNegative(langs: seq<string>, types: map<string, Narration>, minutes: real,
                            rates: RateTable)
    requires minutes >= 0.0 && rates.narratorAI >= 0.0 && rates.narratorHuman >= 0.0
    ensures LanguageCost(langs, types, minutes, rates) >= 0.0
  {
    LanguageCostByCounts(langs, types, minutes, rates);
    MulNonNegative(minutes, rates.narratorAI);
    TimesNonNegative(CountNarrated(langs, types, AINarration), minutes * rates.narratorAI);
    TimesNonNegative(CountNarrated(langs, types, HumanNarration), rates.narratorHuman);
  }

  /** With non-negative rates and inputs inside the form's ranges, no category costs less than
      nothing. */
  lemma CostsNonNegative(c: ProductionConfig, rates: RateTable)
    requires ValidConfig(c) && NonNegativeRates(rates)
    ensures forall k :: Costs(c, rates).Get(k) >= 0.0
  {
    var seconds := c.durationSeconds;
    PlanningNonNegative(c, rates);
    ModelingNonNegative(c, rates);
    ShotsNonNegative(seconds, c.complexity);
    ShotCostsNonNegative(Shots(seconds, c.complexity), c.resolution, rates);
    EditingNonNegative(seconds, rates);
    LanguageNonNegative(c.languages, c.narrationTypes, Minutes(seconds), rates);
    LiveActionNonNegative(c, rates);
  }
}
