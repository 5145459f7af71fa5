/** Kelly estimation from per-trade returns, and the constrained recommendations built on it. */
module Kelly {
  import opened Prelude
  import opened RiskBudget

  const DEFAULT_MAX_POSITION := 0.10

  // ----- Sums over lists -----

  function Sum(values: seq<real>): real {
    if values == [] then 0.0 else Sum(values[..|values| - 1]) + values[|values| - 1]
  }

  function Wins(trades: seq<real>): seq<real> {
    if trades == [] then []
    else
      var rest, last := Wins(trades[..|trades| - 1]), trades[|trades| - 1];
      if last > 0.0 then rest + [last] else rest
  }

  function Losses(trades: seq<real>): seq<real> {
    if trades == [] then []
    else
      var rest, last := Losses(trades[..|trades| - 1]), trades[|trades| - 1];
      if last < 0.0 then rest + [last] else rest
  }

  /** Wins and losses between them carry the whole sum, and their signs are what they say. */
  lemma {:induction false} SumOfSides(trades: seq<real>)
    ensures Sum(trades) == Sum(Wins(trades)) + Sum(Losses(trades))
    ensures Sum(Wins(trades)) >= 0.0 && (Wins(trades) != [] ==> Sum(Wins(trades)) > 0.0)
    ensures Sum(Losses(trades)) <= 0.0 && (Losses(trades) != [] ==> Sum(Losses(trades)) < 0.0)
    decreases |trades|
  {
    if trades != [] {
      var n := |trades| - 1;
      SumOfSides(trades[..n]);
      var w, l := Wins(trades[..n]), Losses(trades[..n]);
      assert (w + [trades[n]])[..|w|] == w && (l + [trades[n]])[..|l|] == l;
    }
  }

  // ----- The overflow-safe mean -----

  function Scale(values: seq<real>): real {
    if values == [] then 0.0 else Max(Scale(values[..|values| - 1]), Abs(values[|values| - 1]))
  }

  function ScaledSum(values: seq<real>, scale: real): real
    requires scale != 0.0
  {
    if values == [] then 0.0 else ScaledSum(values[..|values| - 1], scale) + values[|values| - 1] / scale
  }

  /** The scale is the largest magnitude, so no scaled term is larger than one. */
  lemma {:induction false} ScaleIsLargest(values: seq<real>)
    requires values != []
    ensures forall i :: 0 <= i < |values| ==> Abs(values[i]) <= Scale(values)
    ensures exists i :: 0 <= i < |values| && Abs(values[i]) == Scale(values)
    decreases |values|
  {
    var n := |values| - 1;
    if n > 0 {
      ScaleIsLargest(values[..n]);
      var i :| 0 <= i < n && Abs(values[..n][i]) == Scale(values[..n]);
      assert Abs(values[i]) == Scale(values[..n]);
      forall j | 0 <= j < n
        ensures Abs(values[j]) <= Scale(values[..n])
      {
        assert values[..n][j] == values[j];
      }
    }
  }

  /** _stable_mean: every term is divided by the largest magnitude before summing. */
  function StableMean(values: seq<real>): real
    requires values != []
  {
    var scale := Scale(values);
    if scale == 0.0 then 0.0 else scale * (ScaledSum(values, scale) / |values| as real)
  }

  lemma {:induction false} ScaleBoundsValues(values: seq<real>)
    ensures Scale(values) >= 0.0 && forall i :: 0 <= i < |values| ==> Abs(values[i]) <= Scale(values)
    decreases |values|
  {
    if values != [] {
      var n := |values| - 1;
      ScaleBoundsValues(values[..n]);
      forall i | 0 <= i < |values|
        ensures Abs(values[i]) <= Scale(values)
      {
        if i < n {
          assert values[..n][i] == values[i];
        }
      }
    }
  }

  lemma {:induction false} ScaledSumIsSum(values: seq<real>, scale: real)
    requires scale > 0.0
    ensures IsMultiple(Sum(values), scale, ScaledSum(values, scale))
    decreases |values|
  {
    if values == [] {
      ZeroIsMultiple(scale);
    } else {
      var n := |values| - 1;
      ScaledSumIsSum(values[..n], scale);
      QuotientIsMultiple(values[n], scale);
      hide IsMultiple;
      MultiplesAdd(scale, Sum(values[..n]), ScaledSum(values[..n], scale), values[n], values[n] / scale);
    }
  }

  lemma {:induction false} ZeroScaleZeroSum(values: seq<real>)
    requires forall i :: 0 <= i < |values| ==> values[i] == 0.0
    ensures Sum(values) == 0.0
    decreases |values|
  {
    if values != [] {
      ZeroScaleZeroSum(values[..|values| - 1]);
    }
  }

  /** The rearranged computation is the mean: no intermediate scaling changes its value. */
  lemma StableMeanIsMean(values: seq<real>)
    requires values != []
    ensures StableMean(values) == Sum(values) / |values| as real
  {
    hide Sum, Scale, ScaledSum, IsMultiple;
    ScaleBoundsValues(values);
    var scale := Scale(values);
    if scale == 0.0 {
      forall i | 0 <= i < |values|
        ensures values[i] == 0.0
      {
        assert Abs(values[i]) <= 0.0;
      }
      ZeroScaleZeroSum(values);
      ZeroQuotient(|values| as real);
    } else {
      ScaledSumIsSum(values, scale);
      MultipleOverCount(Sum(values), scale, ScaledSum(values, scale), |values| as real);
    }
  }

  lemma ZeroQuotient(n: real)
    requires n > 0.0
    ensures 0.0 / n == 0.0
  {
  }

  lemma MultipleOverCount(sum: real, scale: real, scaled: real, n: real)
    requires n > 0.0 && IsMultiple(sum, scale, scaled)
    ensures scale * (scaled / n) == sum / n
  {
    var q := scaled / n;
    assert q * n == scaled;
    assert (scale * q) * n == scale * (q * n);
  }

  // ----- estimate_kelly -----

  datatype KellyResult = KellyResult(
    winRate: real, averageWin: real, averageLoss: real, fraction: real, half: real, maxPosition: real)

  const EMPTY_RESULT := KellyResult(0.0, 0.0, 0.0, 0.0, 0.0, 0.0)

  function Clamp(x: real): real {
    Max(0.0, Min(x, 1.0))
  }

  function BinaryEdge(winRate: real, lossToWin: real): real {
    winRate - (1.0 - winRate) * lossToWin
  }

  /** The win rate times the part of the gains that the losses did not take back. */
  function NetShare(winRate: real, lossToGain: real): real {
    winRate * (1.0 - lossToGain)
  }

  function BinaryKelly(winRate: real, averageWin: real, averageLoss: real): real {
    if averageWin <= 0.0 then 0.0
    else if averageLoss <= 0.0 then Min(winRate, 1.0)
    else Clamp(BinaryEdge(winRate, averageLoss / averageWin))
  }

  function EstimateKelly(trades: seq<real>): KellyResult {
    var wins, losses := Wins(trades), Losses(trades);
    var decisive := |wins| + |losses|;
    if decisive == 0 then EMPTY_RESULT
    else
      var winRate := |wins| as real / decisive as real;
      var averageWin := if wins != [] then StableMean(wins) else 0.0;
      var averageLoss := if losses != [] then Abs(StableMean(losses)) else 0.0;
      var fraction := BinaryKelly(winRate, averageWin, averageLoss);
      KellyResult(winRate, averageWin, averageLoss, fraction, fraction / 2.0, Min(fraction / 2.0, DEFAULT_MAX_POSITION))
  }

  /** With wins and losses on both sides the Kelly fraction is the win rate times the net share of the gains. */
  lemma KellyClosedForm(trades: seq<real>)
    requires Wins(trades) != [] && Losses(trades) != []
    ensures
      var w, l := |Wins(trades)| as real, |Losses(trades)| as real;
      var gain, loss := Sum(Wins(trades)), -Sum(Losses(trades));
      && gain > 0.0 && loss > 0.0
      && EstimateKelly(trades).fraction == Clamp(NetShare(w / (w + l), loss / gain))
      && EstimateKelly(trades).winRate == w / (w + l)
      && EstimateKelly(trades).averageWin == gain / w && EstimateKelly(trades).averageLoss == loss / l
  {
    hide Sum, Wins, Losses, StableMean, BinaryKelly, NetShare, Clamp;
    SumOfSides(trades);
    StableMeanIsMean(Wins(trades));
    StableMeanIsMean(Losses(trades));
    var w, l := |Wins(trades)| as real, |Losses(trades)| as real;
    var gain, loss := Sum(Wins(trades)), -Sum(Losses(trades));
    QuotientPositive(gain, w);
    QuotientPositive(loss, l);
    NegatedQuotient(loss, l);
    assert (|Wins(trades)| + |Losses(trades)|) as real == w + l;
    BinaryKellyClosed(w, l, gain, loss);
  }

  /** Half of the fraction, and never more than a tenth of it as a position. */
  lemma HalfAndPosition(trades: seq<real>)
    ensures
      var r := EstimateKelly(trades);
      && r.half + r.half == r.fraction && r.maxPosition <= r.half && r.maxPosition <= 0.1
      && (r.maxPosition == r.half || r.maxPosition == 0.1)
  {
    hide StableMean, Wins, Losses, BinaryKelly;
  }

  /**
   * Without a loss the fraction is the whole stake, without a win it is nothing, and the side that is missing has the
   * average zero; trades that neither won nor lost count for nothing.
   */
  lemma OneSidedKelly(trades: seq<real>)
    requires Wins(trades) == [] || Losses(trades) == []
    ensures
      var r := EstimateKelly(trades);
      if Wins(trades) == [] then r.winRate == 0.0 && r.averageWin == 0.0 && r.fraction == 0.0
      else r.winRate == 1.0 && r.averageLoss == 0.0 && r.fraction == 1.0
    ensures Losses(trades) == [] ==> EstimateKelly(trades).averageLoss == 0.0
  {
    SumOfSides(trades);
    hide Sum, Wins, Losses, StableMean;
    if Wins(trades) != [] {
      StableMeanIsMean(Wins(trades));
      QuotientPositive(Sum(Wins(trades)), |Wins(trades)| as real);
    }
  }

  lemma NegatedQuotient(a: real, b: real)
    requires b > 0.0
    ensures (-a) / b == -(a / b)
  {
    assert (a / b) * b == a;
    DivideBack(-a, b, -(a / b));
  }

  lemma BinaryKellyClosed(w: real, l: real, gain: real, loss: real)
    requires w > 0.0 && l > 0.0 && gain > 0.0 && loss > 0.0
    ensures BinaryKelly(w / (w + l), gain / w, loss / l) == Clamp(NetShare(w / (w + l), loss / gain))
  {
    hide Clamp, BinaryEdge, NetShare;
    QuotientPositive(gain, w);
    QuotientPositive(loss, l);
    KellyAlgebra(w, l, gain, loss);
  }

  /** The textbook form and the closed form are the same rational function. */
  lemma KellyAlgebra(w: real, l: real, gain: real, loss: real)
    requires w > 0.0 && l > 0.0 && gain > 0.0 && loss > 0.0
    ensures gain / w > 0.0
    ensures BinaryEdge(w / (w + l), (loss / l) / (gain / w)) == NetShare(w / (w + l), loss / gain)
  {
    hide BinaryEdge, NetShare;
    QuotientPositive(gain, w);
    LossShare(w, l);
    QuotientTimes(loss, l);
    QuotientTimes(gain, w);
    QuotientTimes(loss, gain);
    QuotientTimes(w, l);
    FourQuotients(loss / l, gain / w, loss / gain, w / l, loss, gain, l, w);
    OddsCancel(w / (w + l), (loss / l) / (gain / w), w / l, w, l, loss / gain);
  }

  lemma LossShare(w: real, l: real)
    requires w > 0.0 && l > 0.0
    ensures (1.0 - w / (w + l)) * w == (w / (w + l)) * l
  {
    var p := w / (w + l);
    assert p * (w + l) == w;
    assert p * w + p * l == w;
    assert (1.0 - p) * w == w - p * w;
  }

  lemma FourQuotients(a: real, b: real, r: real, x: real, loss: real, gain: real, l: real, w: real)
    requires b > 0.0 && l > 0.0 && a * l == loss && b * w == gain && r * gain == loss && x * l == w
    ensures a / b == r * x
  {
    assert r * (b * (x * l)) == ((r * x) * b) * l;
    assert (a - (r * x) * b) * l == 0.0;
    ZeroFactor(a - (r * x) * b, l);
    assert a == (r * x) * b;
    DivideBack(a, b, r * x);
  }

  lemma ZeroFactor(a: real, b: real)
    requires a * b == 0.0 && b > 0.0
    ensures a == 0.0
  {
  }

  lemma DivideBack(a: real, b: real, q: real)
    requires b > 0.0 && a == q * b
    ensures a / b == q
  {
    assert (a / b) * b == a;
    assert (a / b - q) * b == 0.0;
    ZeroFactor(a / b - q, b);
  }

  lemma OddsCancel(p: real, ratio: real, x: real, w: real, l: real, r: real)
    requires w > 0.0 && l > 0.0 && (1.0 - p) * w == p * l && x * l == w && ratio == r * x
    ensures BinaryEdge(p, ratio) == NetShare(p, r)
  {
    assert ((1.0 - p) * x) * l == (1.0 - p) * (x * l);
    assert ((1.0 - p) * x - p) * l == 0.0;
    ZeroFactor((1.0 - p) * x - p, l);
    assert (1.0 - p) * (r * x) == r * ((1.0 - p) * x);
  }

  /** The fraction is positive exactly when the trades made money in total, and then it is below the win rate. */
  lemma KellyIsSignTest(trades: seq<real>)
    requires Wins(trades) != [] && Losses(trades) != []
    ensures EstimateKelly(trades).fraction > 0.0 <==> Sum(trades) > 0.0
    ensures 0.0 <= EstimateKelly(trades).fraction < 1.0
    ensures Sum(trades) > 0.0 ==> EstimateKelly(trades).fraction < EstimateKelly(trades).winRate
  {
    hide Sum, Wins, Losses, EstimateKelly, NetShare;
    KellyClosedForm(trades);
    SumOfSides(trades);
    var w, l := |Wins(trades)| as real, |Losses(trades)| as real;
    var gain, loss := Sum(Wins(trades)), -Sum(Losses(trades));
    SignOfShare(w / (w + l), gain, loss, w, l);
  }

  lemma SignOfShare(p: real, gain: real, loss: real, w: real, l: real)
    requires w > 0.0 && l > 0.0 && p == w / (w + l) && gain > 0.0 && loss > 0.0
    ensures NetShare(p, loss / gain) > 0.0 <==> gain > loss
    ensures NetShare(p, loss / gain) < 1.0 && NetShare(p, loss / gain) < p
  {
    hide NetShare;
    ProperQuotient(w, w + l);
    QuotientPositive(loss, gain);
    QuotientBelowOne(loss, gain);
    SignOfNetShare(p, loss / gain);
  }

  lemma QuotientBelowOne(a: real, b: real)
    requires a > 0.0 && b > 0.0
    ensures a / b < 1.0 <==> a < b
  {
    var q := a / b;
    assert q * b == a;
    StepsCompare(q, 1.0, b);
    StepsCompare(1.0, q, b);
  }

  lemma ProperQuotient(a: real, b: real)
    requires 0.0 < a < b
    ensures 0.0 < a / b < 1.0
  {
    QuotientPositive(a, b);
    QuotientBelowOne(a, b);
  }

  lemma NetShareBelowRate(p: real, r: real)
    requires p > 0.0 && r > 0.0
    ensures NetShare(p, r) < p
  {
    ProductPositive(p, r);
    assert NetShare(p, r) == p - p * r;
  }

  lemma SignOfNetShare(p: real, r: real)
    requires 0.0 < p < 1.0 && r > 0.0
    ensures NetShare(p, r) > 0.0 <==> r < 1.0
    ensures NetShare(p, r) < 1.0 && NetShare(p, r) < p
  {
    NetShareBelowRate(p, r);
    if r < 1.0 {
      ProductPositive(p, 1.0 - r);
      ProductPositive(p, r);
    } else if r > 1.0 {
      ProductPositive(p, r - 1.0);
    }
  }

  // ----- constrained_kelly_recommendation -----

  datatype Reason =
    | InvalidConstraints | InsufficientSamples | InsufficientWinLoss | MissingDrawdown
    | InvalidDrawdown | DrawdownLimitExceeded | NonPositiveEdge
    | InvalidLossFraction | FullKellyNotAllowed

  datatype Recommendation =
    | Parked(reason: Reason)
    | Ready(rawFraction: real, fractional: real, recommended: real)

  datatype Constraints = Constraints(riskBudgetCap: real, positionCap: real, fractionalKelly: real, minSamples: int,
                                     drawdown: Option<real>, maxDrawdown: real)

  predicate ConstraintsValid(c: Constraints) {
    && c.minSamples >= 2 && c.riskBudgetCap > 0.0 && c.positionCap > 0.0
    && 0.0 < c.fractionalKelly < 1.0 && 0.0 < c.maxDrawdown <= 1.0
  }

  function FractionalShare(share: real, fraction: real): real {
    share * fraction
  }

  function Recommend(trades: seq<real>, c: Constraints): Recommendation {
    if !ConstraintsValid(c) then Parked(InvalidConstraints)
    else if |trades| < c.minSamples then Parked(InsufficientSamples)
    else if Wins(trades) == [] || Losses(trades) == [] then Parked(InsufficientWinLoss)
    else if c.drawdown.None? then Parked(MissingDrawdown)
    else if c.drawdown.value < 0.0 then Parked(InvalidDrawdown)
    else if c.drawdown.value > c.maxDrawdown then Parked(DrawdownLimitExceeded)
    else
      var raw := EstimateKelly(trades).fraction;
      var fractional := FractionalShare(raw, c.fractionalKelly);
      var recommended := Min(fractional, Min(c.riskBudgetCap, c.positionCap));
      if recommended <= 0.0 then Parked(NonPositiveEdge) else Ready(raw, fractional, recommended)
  }

  /** Everything but the edge: valid constraints, enough two-sided samples and an admissible drawdown. */
  predicate Gated(trades: seq<real>, c: Constraints) {
    && ConstraintsValid(c) && |trades| >= c.minSamples && Wins(trades) != [] && Losses(trades) != []
    && c.drawdown.Some? && 0.0 <= c.drawdown.value <= c.maxDrawdown
  }

  /**
   * Readiness is a sign test behind the gates: the recommendation is ready exactly when the gates hold and
   * the trades made money in total, and it never exceeds a cap or the fractional Kelly share.
   */
  lemma ReadyExactly(trades: seq<real>, c: Constraints)
    ensures Recommend(trades, c).Ready? <==> Gated(trades, c) && Sum(trades) > 0.0
    ensures Gated(trades, c) <==>
      && c.minSamples >= 2 && |trades| >= c.minSamples && HasWin(trades) && HasLoss(trades)
      && c.riskBudgetCap > 0.0 && c.positionCap > 0.0
      && 0.0 < c.fractionalKelly < 1.0
      && c.drawdown.Some? && 0.0 <= c.drawdown.value <= c.maxDrawdown && 0.0 < c.maxDrawdown <= 1.0
    ensures Recommend(trades, c).Ready? ==>
      var r := Recommend(trades, c);
      && 0.0 < r.recommended <= c.riskBudgetCap && r.recommended <= c.positionCap
      && r.fractional == FractionalShare(r.rawFraction, c.fractionalKelly)
      && r.recommended <= r.fractional < r.rawFraction < 1.0
      && (r.recommended == r.fractional || r.recommended == c.riskBudgetCap || r.recommended == c.positionCap)
  {
    SidesAreThere(trades);
    hide EstimateKelly, Sum, Wins, Losses, FractionalShare;
    if Gated(trades, c) {
      KellyIsSignTest(trades);
      FractionOfShare(EstimateKelly(trades).fraction, c.fractionalKelly);
    }
  }

  predicate HasWin(trades: seq<real>) {
    exists i :: 0 <= i < |trades| && trades[i] > 0.0
  }

  predicate HasLoss(trades: seq<real>) {
    exists i :: 0 <= i < |trades| && trades[i] < 0.0
  }

  /** A side is empty exactly when no trade was on it. */
  lemma {:induction false} SidesAreThere(trades: seq<real>)
    ensures Wins(trades) != [] <==> HasWin(trades)
    ensures Losses(trades) != [] <==> HasLoss(trades)
    decreases |trades|
  {
    if trades != [] {
      var n := |trades| - 1;
      SidesAreThere(trades[..n]);
      assert forall i :: 0 <= i < n ==> trades[..n][i] == trades[i];
      assert HasWin(trades[..n]) ==> HasWin(trades);
      assert HasLoss(trades[..n]) ==> HasLoss(trades);
    }
  }

  /** What is wrong is said by the first thing that is wrong. */
  lemma ParkedForFirstReason(trades: seq<real>, c: Constraints)
    ensures
      var r := Recommend(trades, c);
      r.Parked? ==>
        match r.reason
        case InvalidConstraints => !ConstraintsValid(c)
        case InsufficientSamples => ConstraintsValid(c) && |trades| < c.minSamples
        case InsufficientWinLoss =>
          |trades| >= c.minSamples && !(HasWin(trades) && HasLoss(trades))
        case MissingDrawdown => |trades| >= c.minSamples && c.drawdown == None
        case InvalidDrawdown => c.drawdown.Some? && c.drawdown.value < 0.0
        case DrawdownLimitExceeded => c.drawdown.Some? && c.drawdown.value > c.maxDrawdown
        case NonPositiveEdge => Gated(trades, c) && Sum(trades) <= 0.0
        case _ => false
  {
    SidesAreThere(trades);
    ReadyExactly(trades, c);
    hide EstimateKelly, Sum, Wins, Losses, FractionalShare, ConstraintsValid;
  }

  lemma FractionOfShare(share: real, fraction: real)
    requires share >= 0.0 && 0.0 < fraction < 1.0
    ensures FractionalShare(share, fraction) > 0.0 <==> share > 0.0
    ensures share > 0.0 ==> FractionalShare(share, fraction) < share
  {
    if share > 0.0 {
      ProductPositive(share, fraction);
      assert FractionalShare(share, fraction) > 0.0;
      hide FractionalShare;
      ProperShareIsLess(share, fraction);
    }
  }

  lemma ProperShareIsLess(share: real, fraction: real)
    requires share > 0.0 && 0.0 < fraction < 1.0
    ensures FractionalShare(share, fraction) < share
  {
    var rest := 1.0 - fraction;
    ProductPositive(share, rest);
    assert share * (fraction + rest) == share * fraction + share * rest;
  }

  // ----- research_capital_exposure_kelly -----

  datatype CapitalRecommendation =
    | CapitalParked(reason: Reason)
    | CapitalReady(riskShare: real, lossFraction: real, theoretical: real, fractionalExposure: real,
        recommendedExposure: real)

  function CapitalConstraints(fractionalKelly: real, drawdown: Option<real>): Constraints {
    Constraints(1.0, 1.0, fractionalKelly, 30, drawdown, 0.25)
  }

  function RecommendCapital(trades: seq<real>, lossFraction: Option<real>, riskCap: real, positionCap: real,
                            fractionalKelly: real, drawdown: Option<real>): CapitalRecommendation
  {
    if lossFraction.None? || lossFraction.value <= 0.0 || lossFraction.value > 1.0 then
      CapitalParked(InvalidLossFraction)
    else if !(0.0 < riskCap <= 1.0) || !(0.0 < positionCap <= 1.0) || fractionalKelly <= 0.0 then
      CapitalParked(InvalidConstraints)
    else if fractionalKelly >= 1.0 then CapitalParked(FullKellyNotAllowed)
    else
      match Recommend(trades, CapitalConstraints(fractionalKelly, drawdown))
      case Parked(reason) => CapitalParked(reason)
      case Ready(share, fractional, _) =>
        var exposure := fractional / lossFraction.value;
        var recommended := Min(exposure, Min(riskCap, positionCap));
        if share <= 0.0 || recommended <= 0.0 then CapitalParked(NonPositiveEdge)
        else CapitalReady(share, lossFraction.value, share / lossFraction.value, exposure, recommended)
  }

  /**
   * The capital form is ready exactly when its own facts are valid and the sign test passes; the exposure it
   * recommends never loses more than the fractional Kelly share of capital, nor exceeds either cap.
   */
  lemma CapitalReadyExactly(trades: seq<real>, lossFraction: Option<real>, riskCap: real, positionCap: real,
                            fractionalKelly: real, drawdown: Option<real>)
    ensures
      RecommendCapital(trades, lossFraction, riskCap, positionCap, fractionalKelly, drawdown).CapitalReady? <==>
        && lossFraction.Some? && 0.0 < lossFraction.value <= 1.0 && 0.0 < riskCap <= 1.0 && 0.0 < positionCap <= 1.0
        && 0.0 < fractionalKelly < 1.0 && |trades| >= 30 && HasWin(trades) && HasLoss(trades)
        && drawdown.Some? && 0.0 <= drawdown.value <= 0.25 && Sum(trades) > 0.0
    ensures
      var r := RecommendCapital(trades, lossFraction, riskCap, positionCap, fractionalKelly, drawdown);
      r.CapitalReady? ==>
        && r.lossFraction == lossFraction.value && r.riskShare == EstimateKelly(trades).fraction
        && r.theoretical * r.lossFraction == r.riskShare
        && r.fractionalExposure * r.lossFraction == fractionalKelly * r.riskShare
        && 0.0 < r.recommendedExposure <= riskCap && r.recommendedExposure <= positionCap
        && r.recommendedExposure <= r.fractionalExposure
        && r.recommendedExposure in {riskCap, positionCap, r.fractionalExposure}
        && r.recommendedExposure * r.lossFraction <= fractionalKelly * r.riskShare
    ensures
      var r := RecommendCapital(trades, lossFraction, riskCap, positionCap, fractionalKelly, drawdown);
      var knowsLoss := lossFraction.Some? && 0.0 < lossFraction.value <= 1.0;
      var inRange := 0.0 < riskCap <= 1.0 && 0.0 < positionCap <= 1.0 && fractionalKelly > 0.0;
      && (!knowsLoss ==> r == CapitalParked(InvalidLossFraction))
      && (knowsLoss && !inRange ==> r == CapitalParked(InvalidConstraints))
      && (knowsLoss && inRange && fractionalKelly >= 1.0 ==> r == CapitalParked(FullKellyNotAllowed))
  {
    var c := CapitalConstraints(fractionalKelly, drawdown);
    ReadyExactly(trades, c);
    RawIsEstimate(trades, c);
    hide Recommend, Sum, Wins, Losses, EstimateKelly, HasWin, HasLoss, Gated;
    if lossFraction.Some? && lossFraction.value > 0.0 && Recommend(trades, c).Ready? {
      var raw, share := Recommend(trades, c).rawFraction, Recommend(trades, c).fractional;
      ExposureOfShare(raw, share, lossFraction.value, Min(riskCap, positionCap));
    }
  }

  lemma RawIsEstimate(trades: seq<real>, c: Constraints)
    ensures Recommend(trades, c).Ready? ==>
      Recommend(trades, c).rawFraction == EstimateKelly(trades).fraction
      && Recommend(trades, c).fractional == c.fractionalKelly * EstimateKelly(trades).fraction
  {
    hide EstimateKelly, Sum, Wins, Losses;
  }

  /** An exposure that loses the share at most, cut off at the cap. */
  lemma ExposureOfShare(raw: real, share: real, loss: real, cap: real)
    requires loss > 0.0 && share > 0.0
    ensures raw / loss * loss == raw && share / loss * loss == share && share / loss > 0.0
    ensures Min(share / loss, cap) * loss <= share
  {
    QuotientPositive(share, loss);
    QuotientTimes(raw, loss);
    QuotientTimes(share, loss);
    StepsCompare(Min(share / loss, cap), share / loss, loss);
  }

  // ----- Order of the trades -----

  predicate Permuted(a: seq<real>, b: seq<real>) {
    multiset(a) == multiset(b)
  }

  lemma SumOfConcat(a: seq<real>, b: seq<real>)
    ensures Sum(a + b) == Sum(a) + Sum(b)
    decreases |b|
  {
    if b == [] {
      assert a + b == a;
    } else {
      var n := |b| - 1;
      assert (a + b)[..|a + b| - 1] == a + b[..n];
      SumOfConcat(a, b[..n]);
    }
  }

  lemma SidesOfConcat(a: seq<real>, b: seq<real>)
    ensures Wins(a + b) == Wins(a) + Wins(b) && Losses(a + b) == Losses(a) + Losses(b)
    decreases |b|
  {
    if b == [] {
      assert a + b == a;
    } else {
      var n := |b| - 1;
      assert (a + b)[..|a + b| - 1] == a + b[..n];
      SidesOfConcat(a, b[..n]);
    }
  }

  lemma TakingOut(left: seq<real>, x: real, right: seq<real>)
    ensures multiset(left + right) == multiset(left + [x] + right) - multiset{x}
  {
    assert multiset(left + [x] + right) == multiset(left) + multiset{x} + multiset(right);
    assert multiset(left + right) == multiset(left) + multiset(right);
  }

  lemma RestIsPermuted(front: seq<real>, x: real, left: seq<real>, right: seq<real>)
    requires multiset(front + [x]) == multiset(left + [x] + right)
    ensures Permuted(front, left + right)
  {
    TakingOut(left, x, right);
    TakingOut(front, x, []);
    assert front + [x] + [] == front + [x] && front + [] == front;
  }

  lemma SplitAround(b: seq<real>, x: real) returns (left: seq<real>, right: seq<real>)
    requires x in b
    ensures b == left + [x] + right
  {
    var i :| 0 <= i < |b| && b[i] == x;
    left, right := b[..i], b[i + 1..];
  }

  /** Any list with the same elements holds the last element of the other somewhere. */
  lemma LastIsSomewhere(a: seq<real>, b: seq<real>) returns (left: seq<real>, right: seq<real>)
    requires a != [] && Permuted(a, b)
    ensures b == left + [a[|a| - 1]] + right
    ensures Permuted(a[..|a| - 1], left + right)
  {
    var n := |a| - 1;
    assert a[n] in multiset(a) && a[n] in multiset(b);
    left, right := SplitAround(b, a[n]);
    assert a == a[..n] + [a[n]];
    RestIsPermuted(a[..n], a[n], left, right);
  }

  /** How many trades won and lost, and what the two sides add up to, do not depend on the order. */
  lemma {:induction false} StatisticsArePermutationInvariant(a: seq<real>, b: seq<real>)
    requires Permuted(a, b)
    ensures |a| == |b|
    ensures |Wins(a)| == |Wins(b)| && |Losses(a)| == |Losses(b)|
    ensures Sum(Wins(a)) == Sum(Wins(b)) && Sum(Losses(a)) == Sum(Losses(b)) && Sum(a) == Sum(b)
    decreases |a|
  {
    hide Wins, Losses, Sum;
    if a == [] {
      assert |multiset(b)| == |b|;
    } else {
      var n := |a| - 1;
      var left, right := LastIsSomewhere(a, b);
      StatisticsArePermutationInvariant(a[..n], left + right);
      MovedOut(left, a[n], right);
      MovedOut(a[..n], a[n], []);
      assert a[..n] + [a[n]] + [] == a && a[..n] + [] == a[..n];
    }
  }

  lemma MovedOut(left: seq<real>, x: real, right: seq<real>)
    ensures |Wins(left + [x] + right)| == |Wins(left + right)| + |Wins([x])|
    ensures |Losses(left + [x] + right)| == |Losses(left + right)| + |Losses([x])|
    ensures Sum(Wins(left + [x] + right)) == Sum(Wins(left + right)) + Sum(Wins([x]))
    ensures Sum(Losses(left + [x] + right)) == Sum(Losses(left + right)) + Sum(Losses([x]))
    ensures Sum(left + [x] + right) == Sum(left + right) + Sum([x])
  {
    SidesOfConcat(left + [x], right);
    SidesOfConcat(left, [x]);
    SidesOfConcat(left, right);
    SumOfConcat(left + [x], right);
    SumOfConcat(left, [x]);
    SumOfConcat(left, right);
    SumOfConcat(Wins(left) + Wins([x]), Wins(right));
    SumOfConcat(Wins(left), Wins([x]));
    SumOfConcat(Wins(left), Wins(right));
    SumOfConcat(Losses(left) + Losses([x]), Losses(right));
    SumOfConcat(Losses(left), Losses([x]));
    SumOfConcat(Losses(left), Losses(right));
  }

  /** The estimate and both recommendations are invariant under permuting the trades. */
  lemma RecommendationsArePermutationInvariant(a: seq<real>, b: seq<real>, c: Constraints, lossFraction: Option<real>,
                                               riskCap: real, positionCap: real, fractionalKelly: real,
                                               drawdown: Option<real>)
    requires Permuted(a, b)
    ensures EstimateKelly(a) == EstimateKelly(b)
    ensures Recommend(a, c) == Recommend(b, c)
    ensures RecommendCapital(a, lossFraction, riskCap, positionCap, fractionalKelly, drawdown)
         == RecommendCapital(b, lossFraction, riskCap, positionCap, fractionalKelly, drawdown)
  {
    StatisticsArePermutationInvariant(a, b);
    EstimateIsPermutationInvariant(a, b);
    hide EstimateKelly, Sum, Wins, Losses, FractionalShare;
    assert Recommend(a, c) == Recommend(b, c);
    var d := CapitalConstraints(fractionalKelly, drawdown);
    assert Recommend(a, d) == Recommend(b, d);
    hide Recommend;
  }

  lemma EstimateIsPermutationInvariant(a: seq<real>, b: seq<real>)
    requires Permuted(a, b)
    ensures EstimateKelly(a) == EstimateKelly(b)
  {
    hide StableMean, Sum, Wins, Losses, BinaryKelly;
    StatisticsArePermutationInvariant(a, b);
    if Wins(a) != [] {
      StableMeanIsMean(Wins(a));
      StableMeanIsMean(Wins(b));
    }
    if Losses(a) != [] {
      StableMeanIsMean(Losses(a));
      StableMeanIsMean(Losses(b));
    }
  }
}
