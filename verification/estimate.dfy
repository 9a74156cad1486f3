/** The estimate: derived counts, category costs, rush, overheads and tax, assembled into one
    result record. */
module Estimator {
  import opened Config
  import opened Derived
  import opened Categories
  import opened Rush

  const ManagementRate: real := 0.08
  const ProfitRate: real := 0.18
  const ContingencyRate: real := 0.10
  const TaxRate: real := 0.10

  datatype EstimateResult = EstimateResult(
    /** The rush-adjusted subtotal of the seven categories. */
    subtotal: real,
    /** The rush-adjusted cost of each category. */
    breakdown: CategoryCosts,
    management: real,
    profit: real,
    contingency: real,
    beforeTax: real,
    tax: real,
    total: real,
    scenes: int,
    shots: int,
    rushMultiplier: real
  )

  /** Every category raised by the same number of tenths; the total is raised with it. */
  function RushBreakdown(costs: CategoryCosts, steps: nat): (r: CategoryCosts)
    ensures forall k :: r.Get(k) == Rushed(costs.Get(k), steps)
    ensures r.Sum() == Rushed(costs.Sum(), steps)
  {
    var r := CategoryCosts(
      Rushed(costs.planning, steps), Rushed(costs.modeling, steps),
      Rushed(costs.animation, steps), Rushed(costs.rendering, steps),
      Rushed(costs.editing, steps), Rushed(costs.language, steps),
      Rushed(costs.liveAction, steps));
    var p, m, a, n, e, l, v :=
      costs.planning, costs.modeling, costs.animation, costs.rendering, costs.editing,
      costs.language, costs.liveAction;
    RushedAdds(p, m, steps);
    RushedAdds(p + m, a, steps);
    RushedAdds(p + m + a, n, steps);
    RushedAdds(p + m + a + n, e, steps);
    RushedAdds(p + m + a + n + e, l, steps);
    RushedAdds(p + m + a + n + e + l, v, steps);
    r
  }

  /** Applies a rush surcharge of `steps` tenths to pre-rush category costs and adds the
      overheads and tax. The breakdown adds up to the subtotal, the overheads add 36% to it,
      and tax adds 10% on top of that. */
  function Assemble(costs: CategoryCosts, steps: nat, scenes: int, shots: int): (r: EstimateResult)
    ensures r.subtotal == r.breakdown.Sum() == Rushed(costs.Sum(), steps)
    ensures forall k :: r.breakdown.Get(k) == Rushed(costs.Get(k), steps)
    ensures r.rushMultiplier == 1.0 + steps as real / 10.0
    ensures r.scenes == scenes && r.shots == shots
    ensures r.beforeTax == 1.36 * r.subtotal
    ensures r.tax == r.beforeTax / 10.0
    ensures r.total == 1.1 * r.beforeTax
  {
    var subtotal := costs.Sum();
    var adjusted := Rushed(subtotal, steps);
    var management := adjusted * ManagementRate;
    var profit := adjusted * ProfitRate;
    var contingency := adjusted * ContingencyRate;
    var beforeTax := adjusted + management + profit + contingency;
    var tax := beforeTax * TaxRate;
    EstimateResult(
      adjusted, RushBreakdown(costs, steps), management, profit, contingency, beforeTax, tax,
      beforeTax + tax, scenes, shots, 1.0 + steps as real / 10.0)
  }

  /** Prices a configuration with a rate table. */
  function Estimate(c: ProductionConfig, rates: RateTable): (r: EstimateResult)
    ensures r.subtotal == r.breakdown.Sum()
    ensures r.total == 1.496 * r.subtotal
    ensures r.rushMultiplier == RushMultiplier(c.deliveryWeeks)
    ensures 1.0 <= r.rushMultiplier <= 1.4
  {
    Assemble(Costs(c, rates), RushSteps(c.deliveryWeeks),
             Scenes(c.durationSeconds), Shots(c.durationSeconds, c.complexity))
  }
}
