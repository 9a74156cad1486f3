# 3DCG video production cost estimator — Dafny model

This project models the estimation engine of a 3DCG video production cost simulator. The engine
takes a production configuration and a rate table. From the video duration and the animation
complexity it derives a scene count and a shot count. It then prices seven cost categories:
planning, modeling, animation, rendering, editing, language (narration) and live action. A
capped schedule-compression ("rush") multiplier scales every category. Management (8%), profit
(18%) and contingency (10%) are added on top, then a 10% consumption tax.

In the source the computation sits inside a React `useMemo`. Here it is a pure function
`Estimator.Estimate(config, rates)`:

- `config.dfy` (module `Config`): the configuration record and its closed enumerations, the
  rate table, the form's default values, and `ValidConfig`, the ranges the form's sliders allow.
- `derived.dfy` (module `Derived`): minutes, `Ceil` (JavaScript's `Math.ceil`), scenes and shots.
- `categories.dfy` (module `Categories`): the seven category costs and their properties.
- `rush.dfy` (module `Rush`): the capped rush multiplier.
- `estimate.dfy` (module `Estimator`): the overheads, the tax and the assembled result.
- `properties.dfy` (module `Properties`): reconciliation, non-negativity, monotonicity and two
  worked scenarios.

Amounts are Dafny `real`, which is exact rational arithmetic. The rush multiplier is always a
whole number of tenths above 1 (`Rush.RushSteps`). `Rush.Rushed` applies it by adding one tenth
of the amount per step. `Rush.RushedIsProduct` proves that this equals multiplying by the
multiplier, as the source does. Written this way, the assembly of the result involves no
product of two unknowns. The duration slider moves in steps
of 15 seconds, so a valid duration is a whole number of quarter minutes. Quarter minutes are
exact in binary floating point too, which means the scene and shot counts agree with the
JavaScript for every duration the form allows.

Facts about the code that the model follows:

- The estimate prices only the terms modelled here. The code also declares state for
  additional versions, research, interviews, storyboard detail, a brand guide, approval layers,
  CAD clean-up, motion graphics, look development, subtitles and a provided script, and rates
  for writers, designers, motion graphics, sound, translation, a studio and a BGM licence, but
  the estimate never reads any of them.
- Profit is not spread over the categories: each breakdown entry is the category cost times
  the rush multiplier, and the entries add up to the subtotal, not to subtotal plus profit.
- The delivery slider runs from 4 to 20 weeks.
- Every enumeration (resolution, planning level, complexity, narration) is a closed datatype,
  so a value outside the form's radio groups cannot be written.

## Model

| member | source | states |
|---|---|---|
| Derived.Ceil | src/App.jsx:78 | `Math.ceil` on an exact real: the result is the least integer not below its argument |
| Derived.Scenes | src/App.jsx:75-78 | one scene per started minute: `(scenes-1)*60 < seconds <= scenes*60` |
| Derived.ShotsCover | src/App.jsx:79-85 | the shot count is the least whole number with `seconds * k <= shots * 60`, where k is 4/5/6/7 shots per minute for camera/exploded/mechanical/physics |
| Derived.ScenesAndShots | src/App.jsx:75-85 | over the 15..600 s slider there are 1 to 10 scenes, and scenes ≤ shots ≤ k × scenes |
| Derived.CameraShotsExact | src/App.jsx:85 | with durations in the duration slider's 15-second steps (src/App.jsx:259-266), camera work has exactly one shot per 15 seconds |
| Categories.PlanningNonNegative | src/App.jsx:88-97 | the planning cost is non-negative when workshops ≥ 0, concept versions ≥ 1 and the planner rate is ≥ 0 |
| Categories.ModelingCostIsHours | src/App.jsx:100-106 | the modeling cost is the modeler rate times the total modeling hours (8/20/48 per scratch model, 6/12/28 per CAD model) |
| Categories.ModelingCostByHours | src/App.jsx:100-106 | the modeling cost is 0 with no models, and with non-negative counts and a positive rate it is 0 only with no models |
| Categories.RenderingIn4K | src/App.jsx:114-116 | rendering is 2 CG-generalist hours per shot, and 4K costs exactly 1.6 times 1080p |
| Categories.ShotsFollowComplexity | src/App.jsx:79-85 | a complexity with more shots per minute never gives fewer shots for the same duration |
| Categories.ShotCostsFollowShots | src/App.jsx:109-116 | with non-negative rates, more shots never cost less to animate (4 h per shot) or to render |
| Categories.EditingByLength | src/App.jsx:119-120 | editing is charged per minute: the cost of a combined length is the sum of the parts, and a longer video never costs less |
| Categories.LanguageCostByCounts | src/App.jsx:123-130 | the language cost is one AI charge (minutes × AI rate) per AI-narrated language plus one flat human fee per human-narrated language, counting repeats |
| Categories.UnnarratedLanguageIsFree | src/App.jsx:124-130 | a language narrated 'none', or missing from the narration map, adds nothing wherever it appears in the list |
| Categories.LiveActionGated | src/App.jsx:133-139 | without live action the cost is 0 whatever the days or scouting; with it, scouting adds exactly 6 × (pm + planner) |
| Categories.CostsNonNegative | src/App.jsx:88-139 | with non-negative rates and in-range inputs, every category cost is ≥ 0 |
| Rush.RushMultiplier | src/App.jsx:145 | the multiplier is 1 from 12 weeks on, 1 + (12 − w)/10 for 8 ≤ w < 12 and 1.4 for w ≤ 8, so it always lies in [1, 1.4]; in every case it is 1 plus a whole number of tenths |
| Rush.RushedIsProduct | src/App.jsx:146 | adding a tenth of an amount `n` times is multiplying it by 1 + n/10 |
| Rush.RushedByWeeks | src/App.jsx:145-146 | applying a delivery time's surcharge to an amount is multiplying the amount by that delivery time's multiplier |
| Rush.RushNonIncreasing | src/App.jsx:145 | a later delivery never has a larger multiplier, nor more tenths of surcharge |
| Estimator.RushBreakdown | src/App.jsx:158-166 | every category receives the same surcharge, and the surcharged entries add up to the surcharged subtotal |
| Estimator.Assemble | src/App.jsx:146-176 | each breakdown entry is its cost with the surcharge, the entries add up to the returned subtotal, the returned multiplier is 1 + steps/10, beforeTax is 1.36 × subtotal, tax is a tenth of beforeTax and total is 1.1 × beforeTax |
| Properties.AssembleByMultiplier | src/App.jsx:145-166 | each breakdown entry, and the subtotal, is the pre-rush amount times the returned multiplier |
| Estimator.Estimate | src/App.jsx:74-186 | the breakdown adds up to the subtotal, the total is 1.496 × the subtotal, and the returned multiplier is the delivery time's multiplier, in [1, 1.4] |
| Properties.BreakdownReconciles | src/App.jsx:142-166 | each breakdown entry is the category cost times the rush multiplier, and the subtotal is both the pre-rush subtotal times the multiplier and the sum of the entries |
| Properties.OverheadsAndTax | src/App.jsx:149-154 | management, profit and contingency are 8%, 18% and 10% of the subtotal; total = beforeTax + tax = 1.496 × subtotal |
| Properties.EstimateCounts | src/App.jsx:75-85 | a valid estimate has at least one scene and at least as many shots as scenes |
| Properties.EstimateNonNegative | src/App.jsx:88-154 | with non-negative rates and in-range inputs, every amount of the estimate is ≥ 0 |
| Properties.BumpRaisesOnlyItsCategory | src/App.jsx:95-139 | raising one scratch or CAD model count, the workshops, the concept versions or the shooting days leaves every other category unchanged and never lowers its own |
| Properties.BumpNeverLowersTotal | src/App.jsx:95-154 | raising any of those counts never lowers the total |
| Properties.TotalFollowsCosts | src/App.jsx:142-154 | with the same delivery time, costs that are no dearer in every category give a total no larger |
| Properties.LaterDeliveryNeverDearer | src/App.jsx:145-154 | with everything else fixed, a later delivery never raises the total |
| Properties.DefaultCosts | src/App.jsx:54-139 | the form's starting configuration at the default rates costs 72,000 / 192,000 / 136,000 / 68,000 / 15,000 / 0 / 0 yen per category |
| Properties.DefaultScenario | src/App.jsx:17-51 | the starting configuration gives 1 scene, 4 shots, no rush and a total of 722,568 yen |
| Properties.BasicPresetEstimate | src/App.jsx:189-203 | the Basic preset gives the starting estimate plus any scratch models already entered; the shooting days and scouting it keeps cost nothing because it turns live action off |
| Properties.RushScenario | src/App.jsx:145-166 | the same configuration with 6 weeks' delivery scales every category by the capped 1.4 |
| Config.DefaultConfigIsValid | src/App.jsx:54-71 | the starting configuration lies inside the form's ranges and the default rates are non-negative |

## Left out

- React state, the `useMemo` dependency list, JSX, sliders, radio groups and checkboxes. The
  slider and radio bounds appear only as `ValidConfig` and the closed datatypes.
- The currency formatter, the dark-mode toggle, and the PDF, Share and
  Settings buttons (which have no handlers). These are presentation only.
- The rush warning under the delivery slider (src/App.jsx:305-309). It prints an uncapped
  `(12 − w) × 10%`, so at 4 weeks it shows +80% while the applied multiplier is 1.4. It is
  display text, and the estimate itself uses the capped multiplier.
- IEEE-754 rounding. JavaScript numbers are doubles; amounts here are exact reals. For example,
  `(12 − 9) × 0.1` is 0.30000000000000004 in the source and exactly 3/10 here.
- State the estimate never reads: additional versions, research, interviews, storyboard detail,
  brand guide, approval layers, CAD clean state, motion graphics, look development, subtitles
  and script provided. The Basic preset's writes to additional versions and CAD clean state are
  dropped with them.
- Rates the estimate never reads: writer, designer, motion graphics, sound, both translation
  rates, studio and BGM licence. `RateTable` holds only the eight rates that are read.
- Profit redistribution into the breakdown, because the code does not do it.
