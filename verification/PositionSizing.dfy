/** Mandate-bound proportional sizing and the reduce-only check it composes with. */
module PositionSizing {
  import opened Prelude
  import opened RiskBudget

  const LOSS_BUDGET_CAP := 0.01
  const EFFECTIVE_EXPOSURE_CAP := 0.50
  const APPROVED_BOOTSTRAP_MANDATE: Id := 0
  const TOLERANCE := 0.000000001

  type Weights = map<Id, real>

  predicate IsFactor(f: int) {
    f == 1 || f == 2 || f == 3
  }

  function NominalCap(f: int): real {
    if f == 1 then 0.50 else if f == 2 then 0.25 else if f == 3 then 0.15 else 0.0
  }

  predicate WeightsValid(w: Weights, allowEmpty: bool) {
    (allowEmpty || w != map[]) && forall s :: s in w ==> w[s] >= 0.0
  }

  /** A product at its nominal cap never makes up more than the effective exposure that a whole vector may have. */
  lemma NominalCapsFitExposure(f: int)
    requires IsFactor(f)
    ensures f as real * NominalCap(f) == (if f == 3 then 0.45 else EFFECTIVE_EXPOSURE_CAP)
  {
  }

  /** _weight_mapping: no negative weight, and not empty unless that is allowed. */
  method CheckWeights(w: Weights, allowEmpty: bool) returns (valid: bool)
    ensures valid == WeightsValid(w, allowEmpty)
  {
    if w == map[] && !allowEmpty {
      return false;
    }
    var left := w.Keys;
    while left != {}
      invariant left <= w.Keys && forall s :: s in w && s !in left ==> w[s] >= 0.0
      decreases left
    {
      var s :| s in left;
      if w[s] < 0.0 {
        return false;
      }
      left := left - {s};
    }
    return true;
  }

  function Factors(factors: map<Id, int>): map<Id, real> {
    map s | s in factors :: factors[s] as real
  }

  /** One symbol's contribution to a weighted sum. */
  function Term(weight: real, quantity: real): real {
    weight * quantity
  }

  function Terms(w: Weights, q: map<Id, real>): map<Id, real>
    requires w.Keys <= q.Keys
  {
    map s | s in w :: Term(w[s], q[s])
  }

  /** Sum of weight times quantity over the weighted symbols. */
  ghost function Dot(w: Weights, q: map<Id, real>): real
    requires w.Keys <= q.Keys
  {
    MapSum(Terms(w, q))
  }

  method ComputeDot(w: Weights, q: map<Id, real>) returns (total: real)
    requires w.Keys <= q.Keys
    ensures total == Dot(w, q)
  {
    total := 0.0;
    var left := w.Keys;
    ghost var terms := Terms(w, q);
    while left != {}
      invariant left <= w.Keys && terms.Keys == left
      invariant forall s :: s in left ==> terms[s] == Term(w[s], q[s])
      invariant total + MapSum(terms) == Dot(w, q)
      decreases left
    {
      var s :| s in left;
      assert s in terms.Keys;
      MapSumSplit(terms, s);
      total := total + Term(w[s], q[s]);
      left := left - {s};
      terms := terms - {s};
    }
    MapSumEmpty(terms);
  }

  function Scaled(w: Weights, c: real): Weights {
    map s | s in w :: w[s] * c
  }

  lemma DotOfScaled(w: Weights, q: map<Id, real>, c: real)
    requires w.Keys <= q.Keys
    ensures IsMultiple(Dot(Scaled(w, c), q), c, Dot(w, q))
  {
    hide MapSum, Term, IsMultiple;
    var m, n := Terms(w, q), Terms(Scaled(w, c), q);
    forall s | s in m
      ensures IsMultiple(n[s], c, m[s])
    {
      ScaledTerm(w, c, s);
      Reassociate(Scaled(w, c)[s], w[s], c, q[s]);
    }
    MapSumScale(m, n, c);
  }

  lemma Reassociate(scaled: real, a: real, c: real, b: real)
    requires IsMultiple(scaled, a, c)
    ensures IsMultiple(Term(scaled, b), c, Term(a, b))
  {
    assert scaled * b == (a * c) * b;
    assert (a * c) * b == c * (a * b);
  }

  lemma ScaledTerm(w: Weights, c: real, s: Id)
    requires s in w
    ensures s in Scaled(w, c) && IsMultiple(Scaled(w, c)[s], w[s], c)
  {
  }

  // ----- Proportional sizing -----

  datatype SizingInput = SizingInput(
    raw: Weights, mandate: Option<Id>, fraction: real, stops: map<Id, real>, drawdownScalar: real,
    available: real, factors: map<Id, int>, inputsFresh: bool)

  predicate InputAccepted(i: SizingInput) {
    && i.inputsFresh && i.mandate.Some? && i.mandate.value != APPROVED_BOOTSTRAP_MANDATE
    && WeightsValid(i.raw, false) && i.stops.Keys == i.raw.Keys && i.factors.Keys == i.raw.Keys
    && 0.0 < i.fraction <= LOSS_BUDGET_CAP && 0.0 < i.drawdownScalar <= 1.0
    && 0.0 < i.available <= EFFECTIVE_EXPOSURE_CAP
    && (forall s :: s in i.raw ==> 0.0 < i.stops[s] <= 1.0 && IsFactor(i.factors[s]))
  }

  /** Stale, unmandated, incomplete or out-of-range input is not accepted. */
  method CheckInput(i: SizingInput) returns (accepted: bool)
    ensures accepted == InputAccepted(i)
  {
    var weights := CheckWeights(i.raw, false);
    if !i.inputsFresh || i.mandate == None || i.mandate == Some(APPROVED_BOOTSTRAP_MANDATE) || !weights
       || i.stops.Keys != i.raw.Keys || i.factors.Keys != i.raw.Keys {
      return false;
    }
    if i.fraction <= 0.0 || i.fraction > 0.01 || i.drawdownScalar <= 0.0 || i.drawdownScalar > 1.0
       || i.available <= 0.0 || i.available > 0.5 {
      return false;
    }
    var left := i.raw.Keys;
    while left != {}
      invariant left <= i.raw.Keys
      invariant forall s :: s in i.raw && s !in left ==> 0.0 < i.stops[s] <= 1.0 && IsFactor(i.factors[s])
      decreases left
    {
      var s :| s in left;
      assert s in i.stops.Keys && s in i.factors.Keys;
      if i.stops[s] <= 0.0 || i.stops[s] > 1.0 || i.factors[s] < 1 || i.factors[s] > 3 {
        return false;
      }
      left := left - {s};
    }
    return true;
  }

  function Active(w: Weights): Weights {
    map s | s in w && w[s] > 0.0 :: w[s]
  }

  /** Scaling the active weights by `c` respects the loss budget, the exposure cap and every nominal cap. */
  ghost predicate Feasible(i: SizingInput, c: real)
    requires InputAccepted(i)
  {
    && Dot(Scaled(Active(i.raw), c), i.stops) <= LossBudget(i)
    && Dot(Scaled(Active(i.raw), c), Factors(i.factors)) <= i.available
    && CapsHold(i, c)
  }

  predicate CapsHold(i: SizingInput, c: real)
    requires InputAccepted(i)
  {
    forall s :: s in Active(i.raw) ==> Scaled(Active(i.raw), c)[s] <= NominalCap(i.factors[s])
  }

  /** A limit divided by what one unit of scale uses of it. */
  function Ratio(limit: real, usage: real): real
    requires usage > 0.0
  {
    limit / usage
  }

  function LossBudget(i: SizingInput): real {
    i.fraction * i.drawdownScalar
  }

  function CapScale(i: SizingInput, s: Id): real
    requires InputAccepted(i) && s in Active(i.raw)
  {
    Ratio(NominalCap(i.factors[s]), Active(i.raw)[s])
  }

  /** The nominal caps of the symbols in `seen` allow the scale. */
  predicate CapsAllow(i: SizingInput, seen: set<Id>, c: real)
    requires InputAccepted(i) && seen <= Active(i.raw).Keys
  {
    forall s :: s in seen ==> c <= CapScale(i, s)
  }

  /** The largest feasible scale that does not enlarge the vector. */
  ghost predicate IsLargestScale(i: SizingInput, scale: real)
    requires InputAccepted(i)
  {
    0.0 < scale <= 1.0 && forall c :: c <= 1.0 ==> (Feasible(i, c) <==> c <= scale)
  }

  lemma QuotientDecides(c: real, a: real, b: real)
    requires b > 0.0
    ensures c <= Ratio(a, b) <==> c * b <= a
  {
    var q := a / b;
    assert q * b == a;
    StepsCompare(c, q, b);
  }

  lemma RatioPositive(limit: real, usage: real)
    requires limit > 0.0 && usage > 0.0
    ensures Ratio(limit, usage) > 0.0
  {
  }

  lemma CapScalePositive(i: SizingInput, s: Id)
    requires InputAccepted(i) && s in Active(i.raw)
    ensures CapScale(i, s) > 0.0
  {
    RatioPositive(NominalCap(i.factors[s]), Active(i.raw)[s]);
  }

  lemma DotPositive(w: Weights, q: map<Id, real>)
    requires w != map[] && w.Keys <= q.Keys
    requires forall s :: s in w ==> w[s] > 0.0 && q[s] > 0.0
    ensures Dot(w, q) > 0.0
  {
    var m := Terms(w, q);
    forall s | s in m
      ensures m[s] > 0.0
    {
      ProductPositive(w[s], q[s]);
    }
    var s :| s in w;
    assert s in m;
    MapSumNonNegative(m);
  }

  /**
   * risk_budgeted_target_weights: an input that is not accepted, or has no active weight, yields the empty
   * vector; otherwise the active weights scaled by exactly the largest feasible factor up to one.
   */
  method RiskBudgetedTargetWeights(i: SizingInput) returns (r: Weights)
    ensures r == map[] <==> !InputAccepted(i) || Active(i.raw) == map[]
    ensures r != map[] ==> exists scale :: IsLargestScale(i, scale) && r == Scaled(Active(i.raw), scale)
  {
    var accepted := CheckInput(i);
    if !accepted {
      return map[];
    }
    var active := Active(i.raw);
    if active == map[] {
      return map[];
    }
    var factors := Factors(i.factors);
    var loss := ComputeDot(active, i.stops);
    var exposure := ComputeDot(active, factors);
    DotPositive(active, i.stops);
    DotPositive(active, factors);
    BudgetPositive(i);
    hide Dot, LossBudget, Ratio, AllowedBy, IsLargestScale, Scaled;
    RatioPositive(LossBudget(i), loss);
    RatioPositive(i.available, exposure);
    var scale := SmallestScale(i, Ratio(LossBudget(i), loss), Ratio(i.available, exposure));
    LargestScale(i, scale, Ratio(LossBudget(i), loss), Ratio(i.available, exposure));
    r := Scaled(active, scale);
    ScaledIsNotEmpty(active, scale);
  }

  /** The minimum of one, the two limits and the cap of every active symbol. */
  method SmallestScale(i: SizingInput, byLoss: real, byExposure: real) returns (scale: real)
    requires InputAccepted(i) && byLoss > 0.0 && byExposure > 0.0
    ensures scale > 0.0
    ensures forall c {:trigger AllowedBy(i, byLoss, byExposure, Active(i.raw).Keys, c)} ::
              c <= scale <==> AllowedBy(i, byLoss, byExposure, Active(i.raw).Keys, c)
  {
    scale := Min(1.0, Min(byLoss, byExposure));
    var left := Active(i.raw).Keys;
    ghost var seen: set<Id> := {};
    forall c
      ensures AllowedBy(i, byLoss, byExposure, {}, c) <==> c <= scale
    {
      AllowedAtStart(i, byLoss, byExposure, c);
    }
    hide AllowedBy, CapScale;
    while left != {}
      invariant left + seen == Active(i.raw).Keys && scale > 0.0
      invariant forall c {:trigger AllowedBy(i, byLoss, byExposure, seen, c)} ::
        c <= scale <==> AllowedBy(i, byLoss, byExposure, seen, c)
      decreases left
    {
      var s :| s in left;
      CapScalePositive(i, s);
      ghost var before := seen;
      left, seen := left - {s}, seen + {s};
      scale := Min(scale, CapScale(i, s));
      forall c
        ensures AllowedBy(i, byLoss, byExposure, seen, c) <==>
                AllowedBy(i, byLoss, byExposure, before, c) && c <= CapScale(i, s)
      {
        AllowedWithOneMore(i, byLoss, byExposure, before, s, c);
      }
    }
    assert seen == Active(i.raw).Keys;
  }

  lemma ScaledIsNotEmpty(w: Weights, c: real)
    requires w != map[]
    ensures Scaled(w, c) != map[]
  {
    var s :| s in w;
    assert s in Scaled(w, c);
  }

  /** What the minimum of all the quotients is. */
  lemma LargestScale(i: SizingInput, scale: real, byLoss: real, byExposure: real)
    requires InputAccepted(i) && scale > 0.0
    requires Dot(Active(i.raw), i.stops) > 0.0 && byLoss == Ratio(LossBudget(i), Dot(Active(i.raw), i.stops))
    requires Dot(Active(i.raw), Factors(i.factors)) > 0.0
    requires byExposure == Ratio(i.available, Dot(Active(i.raw), Factors(i.factors)))
    requires forall c {:trigger AllowedBy(i, byLoss, byExposure, Active(i.raw).Keys, c)} ::
               c <= scale <==> AllowedBy(i, byLoss, byExposure, Active(i.raw).Keys, c)
    ensures IsLargestScale(i, scale)
  {
    assert scale <= 1.0 by { assert AllowedBy(i, byLoss, byExposure, Active(i.raw).Keys, scale); }
    hide AllowedBy, Dot, Feasible;
    forall c | c <= 1.0
      ensures Feasible(i, c) <==> c <= scale
    {
      ScaleDecides(i, c, byLoss, byExposure);
    }
  }

  lemma BudgetPositive(i: SizingInput)
    requires InputAccepted(i)
    ensures LossBudget(i) > 0.0
  {
    ProductPositive(i.fraction, i.drawdownScalar);
  }

  /** The scales that the caps looked at so far allow. */
  ghost predicate AllowedBy(i: SizingInput, byLoss: real, byExposure: real, seen: set<Id>, c: real)
    requires InputAccepted(i) && seen <= Active(i.raw).Keys
  {
    c <= 1.0 && c <= byLoss && c <= byExposure && CapsAllow(i, seen, c)
  }

  lemma AllowedWithOneMore(i: SizingInput, byLoss: real, byExposure: real, seen: set<Id>, s: Id, c: real)
    requires InputAccepted(i) && seen <= Active(i.raw).Keys && s in Active(i.raw)
    ensures AllowedBy(i, byLoss, byExposure, seen + {s}, c) <==>
              AllowedBy(i, byLoss, byExposure, seen, c) && c <= CapScale(i, s)
  {
    hide CapScale;
  }

  lemma AllowedAtStart(i: SizingInput, byLoss: real, byExposure: real, c: real)
    requires InputAccepted(i)
    ensures AllowedBy(i, byLoss, byExposure, {}, c) <==> c <= Min(1.0, Min(byLoss, byExposure))
  {
  }

  /** Each cap is one quotient in the minimum. */
  lemma ScaleDecides(i: SizingInput, c: real, byLoss: real, byExposure: real)
    requires InputAccepted(i) && c <= 1.0
    requires Dot(Active(i.raw), i.stops) > 0.0 && byLoss == Ratio(LossBudget(i), Dot(Active(i.raw), i.stops))
    requires Dot(Active(i.raw), Factors(i.factors)) > 0.0
        && byExposure == Ratio(i.available, Dot(Active(i.raw), Factors(i.factors)))
    ensures Feasible(i, c) <==> AllowedBy(i, byLoss, byExposure, Active(i.raw).Keys, c)
  {
    hide Dot, CapsHold, CapsAllow, Ratio, LossBudget;
    var w := Active(i.raw);
    SumDecides(w, i.stops, c, LossBudget(i));
    SumDecides(w, Factors(i.factors), c, i.available);
    CapsDecide(i, c);
  }

  lemma SumDecides(w: Weights, q: map<Id, real>, c: real, limit: real)
    requires w.Keys <= q.Keys && Dot(w, q) > 0.0
    ensures Dot(Scaled(w, c), q) <= limit <==> c <= Ratio(limit, Dot(w, q))
  {
    hide Dot, IsMultiple;
    DotOfScaled(w, q, c);
    MultipleDecides(Dot(Scaled(w, c), q), c, Dot(w, q), limit);
  }

  lemma MultipleDecides(p: real, c: real, x: real, limit: real)
    requires x > 0.0 && IsMultiple(p, c, x)
    ensures p <= limit <==> c <= Ratio(limit, x)
  {
    QuotientDecides(c, limit, x);
  }

  lemma CapsDecide(i: SizingInput, c: real)
    requires InputAccepted(i)
    ensures CapsHold(i, c) <==> CapsAllow(i, Active(i.raw).Keys, c)
  {
    hide CapScale;
    forall s | s in Active(i.raw)
      ensures c <= CapScale(i, s) <==> Scaled(Active(i.raw), c)[s] <= NominalCap(i.factors[s])
    {
      CapDecides(i, c, s);
    }
  }

  lemma CapDecides(i: SizingInput, c: real, s: Id)
    requires InputAccepted(i) && s in Active(i.raw)
    ensures c <= CapScale(i, s) <==> Scaled(Active(i.raw), c)[s] <= NominalCap(i.factors[s])
  {
    QuotientDecides(c, NominalCap(i.factors[s]), Active(i.raw)[s]);
    hide Ratio;
  }

  // ----- Reduce-only normalization -----

  ghost predicate ReduceOnlyValid(origin: Weights, target: Weights, factors: map<Id, int>, cap: real, observed: real,
                                  cashOnly: bool) {
    && WeightsValid(origin, false) && WeightsValid(target, true)
    && origin.Keys + target.Keys <= factors.Keys
    && 0.0 <= cap <= EFFECTIVE_EXPOSURE_CAP && observed >= 0.0
    && (forall s :: s in factors ==> IsFactor(factors[s]))
    && Active(origin) != map[] && Active(target).Keys <= Active(origin).Keys
    && (cashOnly ==> Active(target) == map[])
    && (forall s :: s in origin ==> (if s in target then target[s] else 0.0) <= origin[s] + TOLERANCE)
    && (forall s :: s in target ==> target[s] <= NominalCap(factors[s]) + TOLERANCE)
    && Abs(Dot(origin, Factors(factors)) - observed) <= TOLERANCE
    && Dot(origin, Factors(factors)) > cap + TOLERANCE
    && Dot(target, Factors(factors)) < Dot(origin, Factors(factors)) - TOLERANCE
    && Dot(target, Factors(factors)) <= cap + TOLERANCE
  }

  method ValidateReduceOnlyNormalization(origin: Weights, target: Weights, factors: map<Id, int>, cap: real,
                                         observed: real, cashOnly: bool)
    returns (valid: bool)
    ensures valid == ReduceOnlyValid(origin, target, factors, cap, observed, cashOnly)
  {
    var originValid := CheckWeights(origin, false);
    var targetValid := CheckWeights(target, true);
    if !originValid || !targetValid || !(origin.Keys + target.Keys <= factors.Keys) {
      return false;
    }
    if !(0.0 <= cap <= EFFECTIVE_EXPOSURE_CAP) || observed < 0.0
        || (exists s :: s in factors && (factors[s] < 1 || factors[s] > 3)) {
      return false;
    }
    var originActive, targetActive := Active(origin).Keys, Active(target).Keys;
    if originActive == {} || !(targetActive <= originActive) || (cashOnly && targetActive != {}) {
      return false;
    }
    if exists s :: s in origin && (if s in target then target[s] else 0.0) > origin[s] + TOLERANCE {
      return false;
    }
    if exists s :: s in target && target[s] > NominalCap(factors[s]) + TOLERANCE {
      return false;
    }
    var originEffective := ComputeDot(origin, Factors(factors));
    var targetEffective := ComputeDot(target, Factors(factors));
    return Abs(originEffective - observed) <= TOLERANCE && originEffective > cap + TOLERANCE
           && targetEffective < originEffective - TOLERANCE && targetEffective <= cap + TOLERANCE;
  }

  /**
   * The two compose: a non-empty sizing result is a valid reduction of its own raw vector exactly when that
   * vector's effective exposure exceeds the available exposure by more than the tolerance.
   */
  lemma SizingResultIsValidReduction(i: SizingInput, scale: real)
    requires InputAccepted(i) && Active(i.raw) != map[] && IsLargestScale(i, scale)
    ensures ReduceOnlyValid(i.raw, Scaled(Active(i.raw), scale), i.factors, i.available,
                            Dot(i.raw, Factors(i.factors)), false)
            <==> Dot(i.raw, Factors(i.factors)) > i.available + TOLERANCE
  {
    RawExposureNonNegative(i);
    ScaledVector(i, scale);
    hide IsLargestScale, Dot, LossBudget, Scaled, Factors;
  }

  /** The scaled vector keeps the active symbols, enlarges none, and fits the caps and the available exposure. */
  lemma ScaledVector(i: SizingInput, scale: real)
    requires InputAccepted(i) && IsLargestScale(i, scale)
    ensures
      var r := Scaled(Active(i.raw), scale);
      && r.Keys == Active(i.raw).Keys && Active(r).Keys == Active(i.raw).Keys
      && (forall s :: s in r ==> 0.0 < r[s] <= i.raw[s] && r[s] <= NominalCap(i.factors[s]))
      && Dot(r, Factors(i.factors)) <= i.available
  {
    var w := Active(i.raw);
    var r := Scaled(w, scale);
    assert Feasible(i, scale);
    hide IsLargestScale, Dot, LossBudget, Factors;
    forall s | s in w
      ensures 0.0 < r[s] <= w[s] && r[s] <= NominalCap(i.factors[s])
    {
      ScaledEntry(w, scale, s);
    }
  }

  lemma WithinCapIsWithinExposure(f: int, weight: real)
    requires IsFactor(f) && 0.0 < weight <= NominalCap(f)
    ensures f as real * weight <= 0.5
  {
    NominalCapsFitExposure(f);
    StepsCompare(weight, NominalCap(f), f as real);
  }

  lemma LossOfLargestScale(i: SizingInput, scale: real)
    requires InputAccepted(i) && IsLargestScale(i, scale)
    ensures Dot(Scaled(Active(i.raw), scale), i.stops) <= 0.01
  {
    assert Feasible(i, scale);
    LossBudgetIsSmall(i);
    hide Dot, IsLargestScale, Scaled, LossBudget;
  }

  lemma LossBudgetIsSmall(i: SizingInput)
    requires InputAccepted(i)
    ensures LossBudget(i) <= 0.01
  {
    ShareOfLimit(i.fraction, i.drawdownScalar);
  }

  /**
   * Whatever the strategy asked for, a sizing result models a loss of at most one percent, an effective exposure of at
   * most one half, and no product beyond its nominal cap.
   */
  lemma SizingStaysWithinMandate(i: SizingInput, scale: real)
    requires InputAccepted(i) && IsLargestScale(i, scale)
    ensures
      var r := Scaled(Active(i.raw), scale);
      && Dot(r, i.stops) <= 0.01 && Dot(r, Factors(i.factors)) <= 0.5
      && (forall s :: s in r ==> 0.0 < r[s] <= i.raw[s] && i.factors[s] as real * r[s] <= 0.5)
  {
    hide IsLargestScale, Dot, Factors, Scaled, NominalCap, LossBudget;
    ScaledVector(i, scale);
    LossOfLargestScale(i, scale);
    var r := Scaled(Active(i.raw), scale);
    forall s | s in r
      ensures i.factors[s] as real * r[s] <= 0.5
    {
      WithinCapIsWithinExposure(i.factors[s], r[s]);
    }
  }

  lemma ShareOfLimit(limit: real, share: real)
    requires limit >= 0.0 && 0.0 <= share <= 1.0
    ensures limit * share <= limit
  {
    assert limit * (1.0 - share) >= 0.0;
  }

  lemma NonNegativeProduct(a: real, b: real)
    requires a >= 0.0 && b >= 0.0
    ensures a * b >= 0.0
  {
  }

  lemma ShrunkWeight(w: real, c: real)
    requires w > 0.0 && 0.0 < c <= 1.0
    ensures 0.0 < w * c <= w
  {
    ProductPositive(w, c);
    assert w * (1.0 - c) >= 0.0;
  }

  lemma ScaledEntry(w: Weights, c: real, s: Id)
    requires s in w && w[s] > 0.0 && 0.0 < c <= 1.0
    ensures s in Scaled(w, c) && Scaled(w, c)[s] == w[s] * c && 0.0 < Scaled(w, c)[s] <= w[s]
  {
    ShrunkWeight(w[s], c);
  }

  lemma RawExposureNonNegative(i: SizingInput)
    requires InputAccepted(i)
    ensures Dot(i.raw, Factors(i.factors)) >= 0.0
  {
    var q := Factors(i.factors);
    var m := Terms(i.raw, q);
    forall s | s in m
      ensures m[s] >= 0.0
    {
      NonNegativeProduct(i.raw[s], q[s]);
    }
    MapSumNonNegative(m);
  }
}
