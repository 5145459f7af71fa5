/** The capital risk envelope and the account-level brake derived from it. */
module CapitalEnvelope {
  import opened Prelude

  /** The part of an envelope that the submission journal reads. */
  datatype Envelope = Envelope(
    invalidEquity: bool,
    invalidDrawdown: bool,
    brakeTripped: bool,
    newRiskAllowed: bool,
    max3xWeight: real,
    leverageNeedsApproval: bool)

  /** One equity band: the drawdown that trips the brake and the leverage posture. */
  datatype Band = Band(brake: real, max3xWeight: real, needsApproval: bool)

  function ResolveBand(equity: real): Band {
    if equity < 50000.0 then Band(0.15, 1.0, false)
    else if equity < 250000.0 then Band(0.10, 0.5, true)
    else if equity <= 1000000.0 then Band(0.075, 0.25, true)
    else Band(0.05, 0.0, true)
  }

  function EvaluateEnvelope(equity: real, drawdown: Option<real>): Envelope {
    if equity < 0.0 then
      Envelope(true, false, false, false, 0.0, true)
    else
      var band := ResolveBand(equity);
      match drawdown
      case None => Envelope(false, false, false, true, band.max3xWeight, band.needsApproval)
      case Some(dd) =>
        if dd < 0.0 then Envelope(false, true, false, false, band.max3xWeight, band.needsApproval)
        else
          var tripped := dd >= band.brake;
          Envelope(false, false, tripped, !tripped, band.max3xWeight, band.needsApproval)
  }

  function DrawdownFrom(equity: real, peak: real): real
    requires peak > 0.0
  {
    Max(0.0, 1.0 - equity / peak)
  }

  /** A caller-supplied account projection. */
  datatype BrakeSnapshot = BrakeSnapshot(equity: Option<real>, peak: Option<real>, drawdown: Option<real>)

  /** Whether the account gate reports a tripped drawdown brake. */
  predicate HardBrakeTriggered(b: BrakeSnapshot) {
    b.equity.Some? &&
    var equity := b.equity.value;
    var peakInvalid := b.peak.Some? && b.peak.value <= 0.0;
    var derived := if b.peak.Some? && b.peak.value > 0.0 then Some(DrawdownFrom(equity, b.peak.value)) else None;
    // A peak that cannot be used fails closed: the envelope sees an invalid drawdown.
    var chosen := if b.drawdown.Some? then b.drawdown else if peakInvalid then Some(-1.0) else derived;
    var envelope := EvaluateEnvelope(equity, chosen);
    if peakInvalid then
      envelope.brakeTripped
    else if envelope.invalidDrawdown && b.peak.Some? && EvaluateEnvelope(equity, derived).brakeTripped then
      true
    else
      !envelope.newRiskAllowed && envelope.brakeTripped
  }

  /**
   * The gate trips exactly when some usable drawdown fact reaches the band's brake:
   * a usable explicit drawdown if there is one, and otherwise the one derived from a usable peak.
   */
  lemma HardBrakeExactly(b: BrakeSnapshot)
    ensures HardBrakeTriggered(b) <==>
      && b.equity.Some? && b.equity.value >= 0.0
      && var brake := ResolveBand(b.equity.value).brake;
         if b.drawdown.Some? && b.drawdown.value >= 0.0 then b.drawdown.value >= brake
         else b.peak.Some? && b.peak.value > 0.0 && DrawdownFrom(b.equity.value, b.peak.value) >= brake
  {
  }

  /** A larger account is never given a deeper brake, a larger leverage weight or a waiver of approval. */
  lemma BandsTightenWithEquity(small: real, large: real, drawdown: Option<real>)
    requires 0.0 <= small <= large
    ensures EvaluateEnvelope(small, drawdown).brakeTripped ==> EvaluateEnvelope(large, drawdown).brakeTripped
    ensures EvaluateEnvelope(large, drawdown).newRiskAllowed ==> EvaluateEnvelope(small, drawdown).newRiskAllowed
    ensures EvaluateEnvelope(large, drawdown).max3xWeight <= EvaluateEnvelope(small, drawdown).max3xWeight
    ensures EvaluateEnvelope(small, drawdown).leverageNeedsApproval ==>
        EvaluateEnvelope(large, drawdown).leverageNeedsApproval
  {
  }

  /** Every partial or full fill of the order stays between the current position and zero. */
  predicate IsProvenRiskReducing(position: Option<real>, buy: bool, quantity: real, pending: real) {
    position.Some? && quantity > 0.0 &&
    var pos := position.value;
    if pos > 0.0 && !buy && pending <= 0.0 then quantity - pending <= pos
    else if pos < 0.0 && buy && pending >= 0.0 then quantity + pending <= -pos
    else false
  }

  /** Between the position and zero, on the position's side. */
  predicate Between(pos: real, exposure: real) {
    0.0 <= exposure <= pos || pos <= exposure <= 0.0
  }

  /**
   * The reduction test holds exactly for an order against a known position, on the other side, beside pending orders
   * on the order's own side, when every fill of the order and of the pending quantity stays between the position and
   * zero.
   */
  lemma ReductionKeepsEveryFillBetweenPositionAndZero(position: Option<real>, buy: bool, quantity: real, pending: real)
    ensures IsProvenRiskReducing(position, buy, quantity, pending) <==>
      && position.Some? && quantity > 0.0 && (if buy then pending >= 0.0 else pending <= 0.0)
      && position.value != 0.0 && buy == (position.value < 0.0)
      && EveryFillReduces(position.value, buy, quantity, pending)
  {
    if position.Some? && quantity > 0.0 && (if buy then pending >= 0.0 else pending <= 0.0) {
      var pos := position.value;
      if !IsProvenRiskReducing(position, buy, quantity, pending) && pos != 0.0 && buy == (pos < 0.0) {
        assert !Between(pos, Exposure(pos, buy, quantity, Abs(pending)));
      }
    }
  }

  ghost predicate EveryFillReduces(pos: real, buy: bool, quantity: real, pending: real) {
    forall fill: real, done: real {:trigger Exposure(pos, buy, fill, done)} ::
      0.0 <= fill <= quantity && 0.0 <= done <= Abs(pending) ==> Between(pos, Exposure(pos, buy, fill, done))
  }

  /** The position after `fill` of the order and `done` of the pending quantity have been executed. */
  function Exposure(pos: real, buy: bool, fill: real, done: real): real {
    if buy then pos + fill + done else pos - fill - done
  }
}
