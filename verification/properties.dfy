/** Properties of the whole estimate: reconciliation, overheads, non-negativity, monotonicity
    and the form's starting scenario. */
module Properties {
  import opened Config
  import opened Derived
  import opened Categories
  import opened Rush
  import opened Estimator

  /** Raising by whole tenths is multiplying by `m`, the multiplier 1 + steps/10. */
  lemma RushedBy(x: real, steps: nat, m: real)
    requires m == 1.0 + steps as real / 10.0
    ensures Rushed(x, steps) == x * m
  {
    RushedIsProduct(x, steps);
  }

  /** Raising every category by whole tenths is multiplying each by the multiplier `m`. */
  lemma RushBreakdownIsProduct(costs: CategoryCosts, steps: nat, m: real)
    requires m == 1.0 + steps as real / 10.0
    ensures forall k :: RushBreakdown(costs, steps).Get(k) == costs.Get(k) * m
  {
    forall k {
      RushedBy(costs.Get(k), steps, m);
    }
  }

  /** Raising by whole tenths is multiplying by the returned multiplier: each breakdown entry
      is its cost times the multiplier, and so is the subtotal. */
  lemma AssembleByMultiplier(costs: CategoryCosts, steps: nat, scenes: int, shots: int)
    ensures var r := Assemble(costs, steps, scenes, shots);
            && (forall k :: r.breakdown.Get(k) == costs.Get(k) * r.rushMultiplier)
            && r.subtotal == costs.Sum() * r.rushMultiplier
  {
    var r := Assemble(costs, steps, scenes, shots);
    RushBreakdownIsProduct(costs, steps, r.rushMultiplier);
    RushedBy(costs.Sum(), steps, r.rushMultiplier);
  }

  /** Each breakdown entry is its category's cost times the rush multiplier, and the returned
      subtotal is both the sum of the entries and the pre-rush subtotal times the multiplier. */
  lemma BreakdownReconciles(c: ProductionConfig, rates: RateTable)
    ensures var r := Estimate(c, rates);
            && r.rushMultiplier == RushMultiplier(c.deliveryWeeks)
            && (forall k :: r.breakdown.Get(k) == Costs(c, rates).Get(k) * r.rushMultiplier)
            && r.subtotal == Costs(c, rates).Sum() * r.rushMultiplier
            && r.subtotal == r.breakdown.Sum()
  {
    AssembleByMultiplier(Costs(c, rates), RushSteps(c.deliveryWeeks),
                         Scenes(c.durationSeconds), Shots(c.durationSeconds, c.complexity));
  }

  /** Management, profit and contingency are 8%, 18% and 10% of the adjusted subtotal; the total
      is the pre-tax amount plus 10% tax, 149.6% of the adjusted subtotal. */
  lemma OverheadsAndTax(c: ProductionConfig, rates: RateTable)
    ensures var r := Estimate(c, rates);
            && r.management == 0.08 * r.subtotal
            && r.profit == 0.18 * r.subtotal
            && r.contingency == 0.10 * r.subtotal
            && r.beforeTax == r.subtotal + r.management + r.profit + r.contingency
            && r.total == r.beforeTax + r.tax
            && r.total == 1.496 * r.subtotal
  {}

  /** Over the form's ranges the estimate has at least one scene and no fewer shots. */
  lemma EstimateCounts(c: ProductionConfig, rates: RateTable)
    requires ValidDuration(c.durationSeconds)
    ensures 1 <= Estimate(c, rates).scenes <= Estimate(c, rates).shots
  {
    ScenesAndShots(c.durationSeconds, c.complexity);
  }

  /** Assembling non-negative costs with a non-negative multiplier gives non-negative amounts. */
  lemma AssembleNonNegative(costs: CategoryCosts, steps: nat, scenes: int, shots: int)
    requires forall k :: costs.Get(k) >= 0.0
    ensures var r := Assemble(costs, steps, scenes, shots);
            && (forall k :: r.breakdown.Get(k) >= 0.0)
            && r.subtotal >= 0.0 && r.management >= 0.0 && r.profit >= 0.0
            && r.contingency >= 0.0 && r.beforeTax >= 0.0 && r.tax >= 0.0 && r.total >= 0.0
  {
    RushedNotBelow(costs.Get(Planning), steps);
    RushedNotBelow(costs.Get(Modeling), steps);
    RushedNotBelow(costs.Get(Animation), steps);
    RushedNotBelow(costs.Get(Rendering), steps);
    RushedNotBelow(costs.Get(Editing), steps);
    RushedNotBelow(costs.Get(Language), steps);
    RushedNotBelow(costs.Get(LiveAction), steps);
    NoDearerSum(CategoryCosts(0.0, 0.0, 0.0, 0.0, 0.0, 0.0, 0.0), costs);
    RushedNotBelow(costs.Sum(), steps);
  }

  /** With non-negative rates and in-range inputs, every amount of the estimate is non-negative. */
  lemma EstimateNonNegative(c: ProductionConfig, rates: RateTable)
    requires ValidConfig(c) && NonNegativeRates(rates)
    ensures var r := Estimate(c, rates);
            && (forall k :: r.breakdown.Get(k) >= 0.0)
            && r.subtotal >= 0.0 && r.management >= 0.0 && r.profit >= 0.0
            && r.contingency >= 0.0 && r.beforeTax >= 0.0 && r.tax >= 0.0 && r.total >= 0.0
  {
    CostsNonNegative(c, rates);
    AssembleNonNegative(Costs(c, rates), RushSteps(c.deliveryWeeks),
                        Scenes(c.durationSeconds), Shots(c.durationSeconds, c.complexity));
  }

  // ---------------------------------------------------------------- monotonicity

  /** The count-like inputs of the form. */
  datatype CountField =
    | ScratchS | ScratchM | ScratchL
    | CadSmall | CadMedium | CadLarge
    | Workshops | ConceptVersions | LiveActionDays

  /** The configuration with one count raised by `extra`. */
  function Bump(c: ProductionConfig, f: CountField, extra: nat): ProductionConfig {
    match f
    case ScratchS => c.(scratchModels := c.scratchModels.(s := c.scratchModels.s + extra))
    case ScratchM => c.(scratchModels := c.scratchModels.(m := c.scratchModels.m + extra))
    case ScratchL => c.(scratchModels := c.scratchModels.(l := c.scratchModels.l + extra))
    case CadSmall => c.(cadModels := c.cadModels.(small := c.cadModels.small + extra))
    case CadMedium => c.(cadModels := c.cadModels.(medium := c.cadModels.medium + extra))
    case CadLarge => c.(cadModels := c.cadModels.(large := c.cadModels.large + extra))
    case Workshops => c.(workshops := c.workshops + extra)
    case ConceptVersions => c.(conceptVersions := c.conceptVersions + extra)
    case LiveActionDays => c.(liveActionDays := c.liveActionDays + extra)
  }

  /** The one category whose cost each count feeds. */
  function FieldCategory(f: CountField): Category {
    match f
    case ScratchS | ScratchM | ScratchL | CadSmall | CadMedium | CadLarge => Modeling
    case Workshops | ConceptVersions => Planning
    case LiveActionDays => LiveAction
  }

  lemma MoreHours(hours: real, hours': real, rate: real)
    requires hours <= hours' && rate >= 0.0
    ensures hours * rate <= hours' * rate
  {
    MulNonNegative(hours' - hours, rate);
  }

  lemma BumpModeling(c: ProductionConfig, rates: RateTable, f: CountField, extra: nat)
    requires FieldCategory(f) == Modeling && rates.modeler >= 0.0
    ensures Costs(Bump(c, f, extra), rates)
            == Costs(c, rates).(modeling := ModelingCost(Bump(c, f, extra), rates))
    ensures ModelingCost(Bump(c, f, extra), rates) >= ModelingCost(c, rates)
  {
    BumpModelHours(c, f, extra);
    MoreModelHours(c, Bump(c, f, extra), rates);
  }

  lemma MoreModelHours(c: ProductionConfig, c': ProductionConfig, rates: RateTable)
    requires ModelHours(c) <= ModelHours(c') && rates.modeler >= 0.0
    ensures ModelingCost(c', rates) >= ModelingCost(c, rates)
  {
    ModelingCostIsHours(c, rates);
    ModelingCostIsHours(c', rates);
    MoreHours(ModelHours(c) as real, ModelHours(c') as real, rates.modeler);
  }

  lemma BumpModelHours(c: ProductionConfig, f: CountField, extra: nat)
    requires FieldCategory(f) == Modeling
    ensures ModelHours(c) <= ModelHours(Bump(c, f, extra))
    ensures Bump(c, f, extra).(scratchModels := c.scratchModels, cadModels := c.cadModels) == c
  {}

  lemma BumpPlanning(c: ProductionConfig, rates: RateTable, f: CountField, extra: nat)
    requires FieldCategory(f) == Planning && rates.planner >= 0.0
    ensures Costs(Bump(c, f, extra), rates)
            == Costs(c, rates).(planning := PlanningCost(Bump(c, f, extra), rates))
    ensures PlanningCost(Bump(c, f, extra), rates) >= PlanningCost(c, rates)
  {
    var c' := Bump(c, f, extra);
    if f == Workshops {
      MoreHours((c.workshops * 3) as real, (c'.workshops * 3) as real, rates.planner);
    } else {
      MoreHours(((c.conceptVersions - 1) * 11) as real, ((c'.conceptVersions - 1) * 11) as real,
                rates.planner);
    }
  }

  lemma BumpLiveAction(c: ProductionConfig, rates: RateTable, extra: nat)
    requires rates.pm >= 0.0 && rates.cgGeneralist >= 0.0
    ensures Costs(Bump(c, LiveActionDays, extra), rates)
            == Costs(c, rates).(liveAction := LiveActionCost(Bump(c, LiveActionDays, extra), rates))
    ensures LiveActionCost(Bump(c, LiveActionDays, extra), rates) >= LiveActionCost(c, rates)
  {
    MoreShootingDays(c, Bump(c, LiveActionDays, extra), rates);
  }

  lemma MoreShootingDays(c: ProductionConfig, c': ProductionConfig, rates: RateTable)
    requires c' == c.(liveActionDays := c'.liveActionDays) && c.liveActionDays <= c'.liveActionDays
    requires rates.pm >= 0.0 && rates.cgGeneralist >= 0.0
    ensures LiveActionCost(c', rates) >= LiveActionCost(c, rates)
  {
    MoreHours((c.liveActionDays * 8) as real, (c'.liveActionDays * 8) as real,
              rates.pm + rates.cgGeneralist * 2.0);
  }

  /** Raising one count changes no other category and never lowers its own. */
  lemma BumpRaisesOnlyItsCategory(c: ProductionConfig, rates: RateTable, f: CountField, extra: nat)
    requires NonNegativeRates(rates)
    ensures forall k :: k != FieldCategory(f) ==>
              Costs(Bump(c, f, extra), rates).Get(k) == Costs(c, rates).Get(k)
    ensures Costs(Bump(c, f, extra), rates).Get(FieldCategory(f))
            >= Costs(c, rates).Get(FieldCategory(f))
  {
    match FieldCategory(f)
    case Modeling => BumpModeling(c, rates, f, extra);
    case Planning => BumpPlanning(c, rates, f, extra);
    case LiveAction => BumpLiveAction(c, rates, extra);
  }

  /** Assembling costs that are each no dearer, with the same surcharge, gives no larger total. */
  lemma AssembleFollowsCosts(costs: CategoryCosts, costs': CategoryCosts, steps: nat,
                             scenes: int, shots: int, scenes': int, shots': int)
    requires NoDearer(costs, costs')
    ensures Assemble(costs, steps, scenes, shots).total
            <= Assemble(costs', steps, scenes', shots').total
  {
    NoDearerSum(costs, costs');
    RushedMonotone(costs.Sum(), costs'.Sum(), steps);
  }

  /** With the same delivery time, a configuration whose every category costs no more has a
      total that is no larger. */
  lemma TotalFollowsCosts(c: ProductionConfig, c': ProductionConfig, rates: RateTable)
    requires c.deliveryWeeks == c'.deliveryWeeks
    requires NoDearer(Costs(c, rates), Costs(c', rates))
    ensures Estimate(c, rates).total <= Estimate(c', rates).total
  {
    AssembleFollowsCosts(Costs(c, rates), Costs(c', rates), RushSteps(c.deliveryWeeks),
                         Scenes(c.durationSeconds), Shots(c.durationSeconds, c.complexity),
                         Scenes(c'.durationSeconds), Shots(c'.durationSeconds, c'.complexity));
  }

  /** Raising any model count, the workshops, the concept versions or the shooting days never
      lowers the total. */
  lemma BumpNeverLowersTotal(c: ProductionConfig, rates: RateTable, f: CountField, extra: nat)
    requires NonNegativeRates(rates)
    ensures Estimate(Bump(c, f, extra), rates).total >= Estimate(c, rates).total
  {
    BumpRaisesOnlyItsCategory(c, rates, f, extra);
    TotalFollowsCosts(c, Bump(c, f, extra), rates);
  }

  /** A smaller surcharge on costs that add up to something non-negative gives no larger total. */
  lemma AssembleFollowsRush(costs: CategoryCosts, steps: nat, steps': nat, scenes: int, shots: int)
    requires costs.Sum() >= 0.0 && steps' <= steps
    ensures Assemble(costs, steps', scenes, shots).total <= Assemble(costs, steps, scenes, shots).total
  {
    RushedMoreSteps(costs.Sum(), steps', steps);
  }

  lemma CostsIgnoreDelivery(c: ProductionConfig, rates: RateTable, weeks: int)
    ensures Costs(c.(deliveryWeeks := weeks), rates) == Costs(c, rates)
  {}

  lemma SubtotalNonNegative(c: ProductionConfig, rates: RateTable)
    requires ValidConfig(c) && NonNegativeRates(rates)
    ensures Costs(c, rates).Sum() >= 0.0
  {
    CostsNonNegative(c, rates);
    NoDearerSum(CategoryCosts(0.0, 0.0, 0.0, 0.0, 0.0, 0.0, 0.0), Costs(c, rates));
  }

  /** With everything else fixed, a later delivery never raises the total. */
  lemma LaterDeliveryNeverDearer(c: ProductionConfig, rates: RateTable, weeks: int)
    requires ValidConfig(c) && NonNegativeRates(rates)
    requires c.deliveryWeeks <= weeks
    ensures Estimate(c.(deliveryWeeks := weeks), rates).total <= Estimate(c, rates).total
  {
    var costs := Costs(c, rates);
    CostsIgnoreDelivery(c, rates, weeks);
    SubtotalNonNegative(c, rates);
    RushNonIncreasing(c.deliveryWeeks, weeks);
    AssembleFollowsRush(costs, RushSteps(c.deliveryWeeks), RushSteps(weeks),
                        Scenes(c.durationSeconds), Shots(c.durationSeconds, c.complexity));
  }

  // ---------------------------------------------------------------- scenarios

  /** The pre-rush category costs of the form's starting configuration at the default rates. */
  lemma DefaultCosts()
    ensures Costs(DefaultConfig, DefaultRates)
            == CategoryCosts(72000.0, 192000.0, 136000.0, 68000.0, 15000.0, 0.0, 0.0)
  {
    CameraShotsExact(60);
  }

  /** The form's starting configuration with the default rates: one scene, four shots, no rush,
      and a total of 722,568 yen. */
  lemma DefaultScenario()
    ensures Estimate(DefaultConfig, DefaultRates)
            == EstimateResult(
                 483000.0,
                 CategoryCosts(72000.0, 192000.0, 136000.0, 68000.0, 15000.0, 0.0, 0.0),
                 38640.0, 86940.0, 48300.0, 656880.0, 65688.0, 722568.0,
                 1, 4, 1.0)
  {
    DefaultCosts();
    CameraShotsExact(60);
  }

  /** The "Basic" preset gives the starting estimate plus whatever scratch models were already
      entered: the shooting days and scouting it keeps cost nothing, because it turns live
      action off. */
  lemma BasicPresetEstimate(c: ProductionConfig, rates: RateTable)
    ensures Estimate(BasicPreset(c), rates) == Estimate(DefaultConfig.(scratchModels := c.scratchModels), rates)
    ensures c.scratchModels == ScratchModels(0, 0, 0) ==>
              Estimate(BasicPreset(c), rates) == Estimate(DefaultConfig, rates)
  {
    var p := BasicPreset(c);
    var d := DefaultConfig.(scratchModels := c.scratchModels);
    assert LiveActionCost(p, rates) == 0.0 == LiveActionCost(d, rates);
    assert Costs(p, rates) == Costs(d, rates);
  }

  /** Six weeks instead of twelve scales every category by the capped 1.4. */
  lemma RushScenario()
    ensures var r := Estimate(DefaultConfig.(deliveryWeeks := 6), DefaultRates);
            && r.rushMultiplier == 1.4
            && r.breakdown == CategoryCosts(100800.0, 268800.0, 190400.0, 95200.0, 21000.0, 0.0, 0.0)
            && r.subtotal == 676200.0
  {
    DefaultCosts();
    CostsIgnoreDelivery(DefaultConfig, DefaultRates, 6);
    assert RushMultiplier(6) == 1.4;
  }
}
