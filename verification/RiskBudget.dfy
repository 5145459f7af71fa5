/** Account-currency risk budget: how much may still be put at risk, and how many units that buys. */
module RiskBudget {
  import opened Prelude

  function AvailableNewRiskBudget(complete: bool, currencyMatches: bool, balance: real, equity: real, floor: real,
                                  reserved: real, costBuffer: real, fraction: real): Option<real>
  {
    if !complete || !currencyMatches then None
    else if balance < 0.0 || floor < 0.0 || reserved < 0.0 || costBuffer < 0.0 || !(0.0 < fraction <= 1.0) then None
    else Some(Max(0.0, Min(fraction * balance, equity - floor - reserved - costBuffer)))
  }

  function MaximumRiskQuantity(budget: real, lossPerUnit: real, fee: real, step: real): Option<real> {
    if budget < 0.0 || fee < 0.0 || lossPerUnit <= 0.0 || step <= 0.0 then None
    else if budget <= fee then Some(0.0)
    else
      ProductPositive(lossPerUnit, step);
      Some(((budget - fee) / (lossPerUnit * step)).Floor as real * step)
  }

  predicate IsWholeSteps(quantity: real, steps: nat, step: real) {
    quantity == steps as real * step
  }

  lemma ProductPositive(a: real, b: real)
    requires a > 0.0 && b > 0.0
    ensures a * b > 0.0
  {
  }

  /**
   * The budget is a sharp admission test: a positive amount fits exactly when it respects the per-trade
   * fraction and leaves equity above the floor, everything already reserved and the cost buffer.
   */
  lemma BudgetAdmitsExactly(balance: real, equity: real, floor: real, reserved: real, costBuffer: real,
                            fraction: real, amount: real)
    requires AvailableNewRiskBudget(true, true, balance, equity, floor, reserved, costBuffer, fraction).Some?
    requires amount > 0.0
    ensures
      amount <= AvailableNewRiskBudget(true, true, balance, equity, floor, reserved, costBuffer, fraction).value
      <==> amount <= fraction * balance && reserved + amount + floor + costBuffer <= equity
  {
  }

  /**
   * The quantity is a whole number of steps, and among whole numbers of steps it is exactly the largest
   * whose modeled loss plus fee still fits the budget.
   */
  lemma QuantityIsLargestAffordable(budget: real, lossPerUnit: real, fee: real, step: real, steps: nat)
    requires MaximumRiskQuantity(budget, lossPerUnit, fee, step).Some?
    ensures
      var best := MaximumRiskQuantity(budget, lossPerUnit, fee, step).value;
      && (exists n: nat :: IsWholeSteps(best, n, step))
      && (steps > 0 ==>
           (steps as real * step <= best <==> steps as real * step * lossPerUnit + fee <= budget))
  {
    var best := MaximumRiskQuantity(budget, lossPerUnit, fee, step).value;
    if budget <= fee {
      assert IsWholeSteps(best, 0, step);
      if steps > 0 {
        ProductPositive(steps as real, step);
        ProductPositive(steps as real * step, lossPerUnit);
      }
    } else {
      var unit := lossPerUnit * step;
      ProductPositive(lossPerUnit, step);
      QuotientNonNegative(budget - fee, unit);
      var n := ((budget - fee) / unit).Floor;
      assert IsWholeSteps(best, n, step);
      FloorDecidesFit(budget - fee, unit, steps);
      StepsCompare(steps as real, n as real, step);
      assert steps as real * step * lossPerUnit == steps as real * unit;
    }
  }

  lemma QuotientTimes(a: real, b: real)
    requires b > 0.0
    ensures (a / b) * b == a
  {
  }

  lemma QuotientPositive(a: real, b: real)
    requires a > 0.0 && b > 0.0
    ensures a / b > 0.0
  {
  }

  lemma QuotientNonNegative(a: real, b: real)
    requires a >= 0.0 && b > 0.0
    ensures a / b >= 0.0
  {
  }

  lemma FloorDecidesFit(total: real, unit: real, steps: nat)
    requires total >= 0.0 && unit > 0.0
    ensures steps <= (total / unit).Floor <==> steps as real * unit <= total
  {
    var q := total / unit;
    assert q * unit == total;
    StepsCompare(steps as real, q, unit);
  }

  lemma StepsCompare(a: real, b: real, unit: real)
    requires unit > 0.0
    ensures a <= b <==> a * unit <= b * unit
  {
    if a <= b {
      assert (b - a) * unit >= 0.0;
    } else {
      ProductPositive(a - b, unit);
      assert (a - b) * unit == a * unit - b * unit;
    }
  }

  /** An order quantity that passed the quantity test can lose no more than the reserved amount. */
  lemma AdmittedQuantityIsCovered(amount: real, lossPerUnit: real, fee: real, step: real, quantity: real)
    requires MaximumRiskQuantity(amount, lossPerUnit, fee, step).Some?
    requires 0.0 < quantity <= MaximumRiskQuantity(amount, lossPerUnit, fee, step).value
    ensures quantity * lossPerUnit + fee <= amount
    ensures 0.0 <= fee < amount && lossPerUnit > 0.0 && step > 0.0
  {
    var best := MaximumRiskQuantity(amount, lossPerUnit, fee, step).value;
    assert amount > fee;
    var unit := lossPerUnit * step;
    ProductPositive(lossPerUnit, step);
    QuotientNonNegative(amount - fee, unit);
    var n := ((amount - fee) / unit).Floor;
    FloorDecidesFit(amount - fee, unit, n);
    assert best * lossPerUnit == n as real * unit;
    StepsCompare(quantity, best, lossPerUnit);
  }
}
