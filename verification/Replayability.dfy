/** What writers create is what readers accept, with two exceptions. */
module Replayability {
  import opened Prelude
  import opened CapitalEnvelope
  import opened RiskBudget
  import opened Journal
  import opened JournalLaws
  import opened Writers

  /**
   * Replayability of every writer: an event created on top of the state it was decided on is accepted by the
   * reducer with exactly two exceptions, an equity snapshot with negative cash, and a new-risk preparation by
   * a reserve call that bound the domain itself and finds the breaker open when it reads again.
   */
  lemma WriterEventReplaysExactly(c: Config, s: State, call: Call)
    requires StateCoherent(s) && Decide(c, s, call).Some?
    requires Mints(call) ==> call.attempt !in s.attempts
    ensures var d := Decide(c, s, call).value;
            && (Apply(s, c.account, Seal(s, c.account, d)).Some? <==> !Unreadable(s, d))
            && (LateNewRisk(s, d) <==> call.ReserveAfterBind? && call.newRisk && s.breakerOpen)
            && (NegativeCash(d) <==> call.RecordEquity? && call.snapshot.cash < 0.0)
  {
    hide StateCoherent, DecideBreaker, DecideEquity, DecideAccountRisk, DecidePreparation, DecideReduction,
      DecideObservation, ApplyBreaker, ApplyEquity, ApplyReservation, PreparationAllowed, ObservationAllowed;
    match call
    case ReserveOrder(o, newRisk, attempt, fence) => PreparationReplays(c, s, o, newRisk, attempt, fence);
    case ReserveAfterBind(o, newRisk, attempt, fence) => PreparationReplays(c, s, o, newRisk, attempt, fence);
    case ReserveReduction(o, brake, attempt, fence) => ReductionReplays(c, s, o, brake, attempt, fence);
    case OpenBreaker(b) => BreakerEventReplays(c, s, b);
    case RecordEquity(n, cashFlow, baseline) => EquityEventReplays(c, s, n, cashFlow, baseline);
    case ReserveRisk(r) => RiskEventReplays(c, s, r, ReservedRisk(s), Reserved3x(s));
    case RecordObservation(attempt, report, recordedAt) =>
      CoherentAttempt(s, attempt);
      ObservationEventReplays(s.attempts[attempt], attempt, report, recordedAt);
    case ReconcileRisk(attempt, filled, fee, positionRisk, source) =>
      ReconcileEventReplays(c, s, attempt, filled, fee, positionRisk, source);
    case Bind(_, _) =>
  }

  lemma ReconcileEventReplays(c: Config, s: State, attempt: Id, filled: real, fee: real, positionRisk: real, source: Id)
    requires StateCoherent(s) && DecideReconcile(c, s, attempt, filled, fee, positionRisk, source).Some?
    ensures
      var d := DecideReconcile(c, s, attempt, filled, fee, positionRisk, source).value;
      d.RiskReconciled? && ApplyReconcile(s, d).Some?
  {
  }

  lemma CoherentAttempt(s: State, a: Id)
    requires StateCoherent(s) && a in s.attempts
    ensures AttemptCoherent(s.attempts[a])
  {
  }

  /** A decided preparation is admissible, unless it brings new risk behind OPEN. */
  lemma PreparationReplays(c: Config, s: State, o: Order, newRisk: bool, attempt: Id, fence: Id)
    requires DecidePreparation(c, s, o, newRisk, attempt, fence).Some? && attempt !in s.attempts
    ensures
      var d := DecidePreparation(c, s, o, newRisk, attempt, fence).value;
      && d.Prepared? && d.preparation.purpose == (if newRisk then NewRisk else Plain)
      && (PreparationAllowed(s, d.preparation) <==> !(newRisk && s.breakerOpen))
  {
  }

  lemma ReductionReplays(c: Config, s: State, o: Order, brake: bool, attempt: Id, fence: Id)
    requires DecideReduction(c, s, o, brake, attempt, fence).Some? && attempt !in s.attempts
    ensures
      var d := DecideReduction(c, s, o, brake, attempt, fence).value;
      d.Prepared? && d.preparation.purpose.Reduction? && PreparationAllowed(s, d.preparation)
  {
  }

  lemma BreakerEventReplays(c: Config, s: State, b: BrakeSnapshot)
    requires DecideBreaker(c, s, b).Some?
    ensures DecideBreaker(c, s, b).value.BreakerOpened? && ApplyBreaker(s, DecideBreaker(c, s, b).value).Some?
  {
    HardBrakeExactly(b);
  }

  lemma EquityEventReplays(c: Config, s: State, n: Snapshot, cashFlow: real, baseline: bool)
    requires StateCoherent(s) && DecideEquity(c, s, n, cashFlow, baseline).Some?
    ensures
      var d := DecideEquity(c, s, n, cashFlow, baseline).value;
      && d.EquityObserved? && d.snapshot.cash == n.cash
      && (ApplyEquity(s, c.account, d.snapshot).Some? <==> n.cash >= 0.0)
  {
  }

  lemma RiskEventReplays(c: Config, s: State, r: RiskRequest, reservedRisk: real, reserved3x: real)
    requires DecideAccountRisk(c, s, r, reservedRisk, reserved3x).Some?
    ensures
      var d := DecideAccountRisk(c, s, r, reservedRisk, reserved3x).value;
      d.RiskReserved? && ApplyReservation(s, d.facts).Some?
    ensures r.order.quantity * r.lossPerUnit + r.fee <= r.amount && r.lossPerUnit > 0.0
  {
    AdmittedQuantityIsCovered(r.amount, r.lossPerUnit, r.fee, r.step, r.order.quantity);
    if r.factor == 3.0 {
      ProductPositive(r.order.quantity, r.unitPrice);
    }
  }

  /** Whatever the broker reports, usable or not, the observation built from it is admissible. */
  lemma ObservationEventReplays(a: Attempt, attempt: Id, r: Report, recordedAt: Option<Time>)
    requires AttemptCoherent(a) && DecideObservation(a, attempt, r, recordedAt).Some?
    ensures var d := DecideObservation(a, attempt, r, recordedAt).value;
            d.Observed? && d.attempt == attempt && ObservationAllowed(a, d.observation, d.recordedAt)
  {
  }

  /** An unusable report on an open attempt is persisted as UNKNOWN, and keeps the facts already known. */
  lemma InvalidReportBecomesUnknown(a: Attempt, attempt: Id, r: Report, recordedAt: Option<Time>)
    requires AttemptCoherent(a) && !Terminalish(a) && ReportInvalid(a, r)
    ensures var o := ObservationFrom(a, r);
            && DecideObservation(a, attempt, r, recordedAt).Some?
            && o.certainty == UNKNOWN && o.filled == a.filled && o.brokerOrder == BrokerOrderOf(a)
  {
  }

  predicate Terminalish(a: Attempt) {
    a.certainty == UNKNOWN || a.certainty == TERMINAL
  }

  // ----- The exception, on a concrete journal -----

  const SAMPLE_DOMAIN := Domain(7, 1, 2, 3, 4, 5, OwnReal)
  const SAMPLE_CONFIG := Config(9, 10, 11, 12, 13, Some(SAMPLE_DOMAIN), true, 100, 100)
  const SAMPLE_ORDER := Order(9, 1, Buy, 1.0, 0, None, 0, 0)
  const OVERDRAWN_SNAPSHOT := Snapshot(true, 9, 7, 2, 20, 500.0, 500.0, -1.0, 99, 101, 0.0, true, true, map[],
                                      map[], map[], 0.0, 0.0, None)

  /** The recorder takes a snapshot with cash -1, and the journal can then never be read again. */
  lemma NegativeCashMakesTheJournalUnreadable(later: seq<Event>)
    ensures
      var bound := Seal(EMPTY_STATE, 9, DecideBind(SAMPLE_CONFIG, EMPTY_STATE, SAMPLE_ORDER, false).value);
      var s := Fold(9, [bound]).state;
      && Fold(9, [bound]).readable
      && DecideEquity(SAMPLE_CONFIG, s, OVERDRAWN_SNAPSHOT, 0.0, true).Some?
      && Replay(9, [bound, Seal(s, 9,
          DecideEquity(SAMPLE_CONFIG, s, OVERDRAWN_SNAPSHOT, 0.0, true).value)] + later).None?
  {
    var bound := Seal(EMPTY_STATE, 9, DecideBind(SAMPLE_CONFIG, EMPTY_STATE, SAMPLE_ORDER, false).value);
    var first := [bound];
    assert first[..0] == [];
    var s := Fold(9, first).state;
    assert HeaderValid(EMPTY_STATE, 9, bound);
    assert Fold(9, first[..0]) == Folded(EMPTY_STATE, true);
    assert s == EMPTY_STATE.(generation := 1, head := bound.digest, binding := Some(BindingOf(SAMPLE_DOMAIN)));
    assert BoundAndVerified(SAMPLE_CONFIG, s);
    assert AvailableNewRiskBudget(true, true, 500.0, 500.0, 0.0, 0.0, 0.0, 0.005).Some?;
    var d := DecideEquity(SAMPLE_CONFIG, s, OVERDRAWN_SNAPSHOT, 0.0, true).value;
    var both := [bound, Seal(s, 9, d)];
    assert both[..1] == first;
    assert (both + later)[..2] == both;
    FoldStaysUnreadable(9, both + later, 2);
  }
}
