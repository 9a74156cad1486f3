/** The schedule-compression ("rush") multiplier applied to every category. */
module Rush {

  function Min(a: real, b: real): real {
    if a <= b then a else b
  }

  /** The surcharge in whole tenths: one per week short of twelve, at most four. */
  function RushSteps(weeks: int): nat {
    if weeks >= 12 then 0 else if weeks <= 8 then 4 else 12 - weeks
  }

  /** A 10% surcharge per week short of twelve, capped at 40%. The contract states the
      piecewise shape: no surcharge from twelve weeks on, linear between eight and twelve, the
      cap from eight weeks down; in every case the surcharge is a whole number of tenths. */
  function RushMultiplier(weeks: int): (m: real)
    ensures weeks >= 12 ==> m == 1.0
    ensures 8 <= weeks < 12 ==> m == 1.0 + (12 - weeks) as real / 10.0
    ensures weeks <= 8 ==> m == 1.4
    ensures 1.0 <= m <= 1.4
    ensures m == 1.0 + RushSteps(weeks) as real / 10.0
  {
    if weeks < 12 then 1.0 + Min((12 - weeks) as real * 0.1, 0.4) else 1.0
  }

  /** A later delivery never costs a larger multiplier. */
  lemma RushNonIncreasing(earlier: int, later: int)
    requires earlier <= later
    ensures RushSteps(earlier) >= RushSteps(later)
    ensures RushMultiplier(earlier) >= RushMultiplier(later)
  {}

  /** `x` raised by `steps` tenths of itself, one tenth at a time. */
  function Rushed(x: real, steps: nat): real {
    if steps == 0 then x else Rushed(x, steps - 1) + x / 10.0
  }

  /** Raising by whole tenths is multiplying by 1 + steps/10. */
  lemma {:induction false} RushedIsProduct(x: real, steps: nat)
    ensures Rushed(x, steps) == x * (1.0 + steps as real / 10.0)
  {
    if steps > 0 {
      RushedIsProduct(x, steps - 1);
      assert x * (1.0 + (steps - 1) as real / 10.0) + x / 10.0
             == x * (1.0 + steps as real / 10.0);
    }
  }

  /** Applying the multiplier of a delivery time is multiplying by it. */
  lemma RushedByWeeks(x: real, weeks: int)
    ensures Rushed(x, RushSteps(weeks)) == x * RushMultiplier(weeks)
  {
    RushedIsProduct(x, RushSteps(weeks));
  }

  /** The surcharge distributes over a sum. */
  lemma {:induction false} RushedAdds(x: real, y: real, steps: nat)
    ensures Rushed(x + y, steps) == Rushed(x, steps) + Rushed(y, steps)
  {
    if steps > 0 {
      RushedAdds(x, y, steps - 1);
    }
  }

  /** A larger amount stays larger after the surcharge. */
  lemma {:induction false} RushedMonotone(x: real, y: real, steps: nat)
    requires x <= y
    ensures Rushed(x, steps) <= Rushed(y, steps)
  {
    if steps > 0 {
      RushedMonotone(x, y, steps - 1);
    }
  }

  /** A non-negative amount is never lowered by the surcharge. */
  lemma {:induction false} RushedNotBelow(x: real, steps: nat)
    requires x >= 0.0
    ensures x <= Rushed(x, steps)
  {
    if steps > 0 {
      RushedNotBelow(x, steps - 1);
    }
  }

  /** On a non-negative amount, more tenths never give less. */
  lemma {:induction false} RushedMoreSteps(x: real, steps: nat, steps': nat)
    requires x >= 0.0 && steps <= steps'
    ensures Rushed(x, steps) <= Rushed(x, steps')
    decreases steps'
  {
    if steps < steps' {
      RushedMoreSteps(x, steps, steps' - 1);
    }
  }
}
