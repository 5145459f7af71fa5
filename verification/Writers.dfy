/**
 * What each writer of the journal checks on the state it has read, and the event it then tries to create.
 * Every decision is a function of the session's configuration, the state read and the caller's arguments.
 */
module Writers {
  import opened Prelude
  import opened CapitalEnvelope
  import opened RiskBudget
  import opened Journal

  datatype CapitalKind = FtmoSimulated | OwnReal

  /** A validated account domain: the facts its policy and identity contribute to the journal. */
  datatype Domain = Domain(
    key: Id, accountType: Id, currency: Id, preference: Id, version: Id, source: Id, kind: CapitalKind)

  function BindingOf(d: Domain): Binding {
    Binding(d.key, d.accountType, d.currency)
  }

  /**
   * One session's fixed facts. `domainVerified` says that the domain validates, matches the observed
   * broker identity and account, and that its policy is active at the decision time.
   */
  datatype Config = Config(
    account: Id, owner: Id, profile: Id, intent: Id, release: Id,
    domain: Option<Domain>, domainVerified: bool, observedAt: Time, decisionAt: Time)

  /** A caller-supplied account snapshot. */
  datatype Snapshot = Snapshot(
    complete: bool, accountId: Id, domainKey: Id, currency: Id, source: Id,
    equity: real, balance: real, cash: real, valuationAt: Time, validUntil: Time,
    pending3x: real, openOrdersComplete: bool, openOrdersEmpty: bool, positions: map<Id, real>,
    coveredFills: map<Id, real>, coveredFees: map<Id, real>, positionRisk: real, position3x: real,
    evidence: Option<Evidence>)

  predicate OrderValid(c: Config, o: Order) {
    o.account == c.account && o.quantity > 0.0 && NonNegativeOption(o.limitPrice)
  }

  /** The journal is bound to exactly this session's verified domain. */
  predicate BoundAndVerified(c: Config, s: State) {
    c.domain.Some? && c.domainVerified && s.binding == Some(BindingOf(c.domain.value))
  }

  // ----- reserve -----

  /** The checks of reserve that happen once, on the first read and before the domain is bound. */
  predicate ReserveAdmitted(c: Config, s: State, o: Order, newRisk: bool) {
    OrderValid(c, o) && !(newRisk && s.breakerOpen)
  }

  /** On an unbound journal a session with a domain binds it first, and then reads again. */
  function DecideBind(c: Config, s: State, o: Order, newRisk: bool): Option<Data> {
    if ReserveAdmitted(c, s, o, newRisk) && c.domain.Some? && c.domainVerified && s.binding.None?
    then Some(DomainBound(BindingOf(c.domain.value))) else None
  }

  predicate ReservationFresh(s: State, order: OrderDigest) {
    && order in s.reservations && s.equity.Some?
    && s.reservations[order].facts.valuationAt == s.equity.value.valuationAt
    && s.reservations[order].facts.source == s.equity.value.source
  }

  /** The rest of reserve; after a bind it runs on the second read, where the breaker is not looked at again. */
  function DecidePreparation(c: Config, s: State, o: Order, newRisk: bool, attempt: Id, fence: Id): Option<Data> {
    var digest := OrderDigest(o);
    if !OrderValid(c, o) then None
    else if c.domain.Some? && !BoundAndVerified(c, s) then None
    else if c.domain.None? && s.binding.Some? then None
    else if c.domain.Some? && !ReservationFresh(s, digest) then None
    else if HasUnresolved(s) then None
    else if c.domain.Some? && ReservationUsed(s, digest) then None
    else if SameIntentAndOrder(s, c.intent, digest) then None
    else Some(Prepared(Preparation(attempt, fence, c.intent, digest, c.release, c.owner, c.profile, o.quantity,
                                   if newRisk then NewRisk else Plain)))
  }

  function DecideReserve(c: Config, s: State, o: Order, newRisk: bool, attempt: Id, fence: Id): Option<Data> {
    if ReserveAdmitted(c, s, o, newRisk) then DecidePreparation(c, s, o, newRisk, attempt, fence) else None
  }

  // ----- reserve_reduction -----

  predicate FilledAttemptsCovered(s: State, q: Equity) {
    forall a :: a in s.attempts && s.attempts[a].filled > 0.0 ==>
      && s.attempts[a].preparedSnapshot.Some?
      && a in q.coveredFills && q.coveredFills[a] == s.attempts[a].filled
      && a in q.coveredFees
      && q.source != s.attempts[a].preparedSnapshot.value.source
      && q.valuationAt > s.attempts[a].preparedSnapshot.value.valuationAt
  }

  predicate BrakeVerified(q: Equity) {
    q.peak > 0.0 && EvaluateEnvelope(q.protectedEquity, Some(DrawdownFrom(q.equity, q.peak))).brakeTripped
  }

  function DecideReduction(c: Config, s: State, o: Order, hardBrake: bool, attempt: Id, fence: Id): Option<Data> {
    var digest := OrderDigest(o);
    if !hardBrake || !BoundAndVerified(c, s) || s.equity.None? then None
    else
      var q := s.equity.value;
      var position := if o.symbol in q.positions then Some(q.positions[o.symbol]) else None;
      if !q.openOrdersComplete || !q.openOrdersEmpty || !(q.valuationAt <= c.decisionAt < q.validUntil) then None
      else if !BrakeVerified(q) || !OrderValid(c, o) then None
      else if !IsProvenRiskReducing(position, o.side.Buy?, o.quantity, 0.0) then None
      else if HasUnresolved(s) || (exists a :: a in s.attempts && s.attempts[a].certainty == KNOWN_PENDING) then None
      else if !FilledAttemptsCovered(s, q) || SameIntentAndOrder(s, c.intent, digest) then None
      else Some(Prepared(Preparation(attempt, fence, c.intent, digest, c.release, c.owner, c.profile, o.quantity,
                                     Reduction(q.source))))
  }

  // ----- record_account_equity -----

  function EquityEvent(c: Config, s: State, currency: Id, n: Snapshot, cashFlow: real): Equity {
    Equity(n.equity, cashFlow, ExpectedPeak(s.equity, n.equity, cashFlow), ExpectedProtected(s.equity, n.equity),
           n.balance, n.cash, currency, n.source, n.domainKey, c.account, n.valuationAt, n.validUntil,
           n.coveredFills, n.coveredFees, n.positionRisk, n.position3x, n.pending3x, true, n.openOrdersEmpty,
           n.positions, n.evidence)
  }

  /** The recorder asks the budget function only whether the snapshot's own facts are acceptable. */
  function SnapshotBudget(d: Domain, n: Snapshot): Option<real> {
    AvailableNewRiskBudget(n.complete, n.currency == d.currency, n.balance, n.equity, 0.0, 0.0, 0.0, 0.005)
  }

  function DecideEquity(c: Config, s: State, n: Snapshot, cashFlow: real, baseline: bool): Option<Data> {
    if !BoundAndVerified(c, s) then None
    else
      var domain := c.domain.value;
      var q := EquityEvent(c, s, s.binding.value.currency, n, cashFlow);
      if n.domainKey != domain.key || n.accountId != c.account || !n.openOrdersComplete || n.pending3x < 0.0 then None
      else if SnapshotBudget(domain, n).None? then None
      else if !(n.valuationAt <= c.observedAt <= c.decisionAt < n.validUntil) then None
      else if n.equity < 0.0 || cashFlow < 0.0 || (s.equity.None? && !baseline) then None
      else if s.equity.Some? && n.valuationAt <= s.equity.value.valuationAt then None
      else if !NonNegativeValues(n.positions) then None
      else if !NonNegativeValues(n.coveredFills) || !NonNegativeValues(n.coveredFees) then None
      else if n.position3x < 0.0 || n.positionRisk < 0.0 then None
      else if n.evidence.Some? && !EvidenceAccepted(n.evidence.value, q, s.attempts, s.reservations) then None
      else Some(EquityObserved(q))
  }

  // ----- reserve_account_risk -----

  datatype RiskRequest = RiskRequest(
    order: Order, snapshot: Snapshot, floor: real, costBuffer: real, amount: real, fraction: real,
    lossPerUnit: real, fee: real, step: real, factor: real, unitPrice: real, existing3x: real,
    pending3x: real, approved: bool, policy: BudgetPolicy)

  predicate SnapshotMatches(q: Equity, n: Snapshot) {
    && q.equity == n.equity && q.balance == n.balance && q.cash == n.cash && q.currency == n.currency
    && q.valuationAt == n.valuationAt && q.source == n.source && q.domainKey == n.domainKey
    && q.validUntil == n.validUntil && q.pending3x == n.pending3x && q.openOrdersComplete == n.openOrdersComplete
  }

  /** The quantity is a whole number of steps, up to one part in a thousand million of a step. */
  predicate StepAligned(quantity: real, step: real)
    requires step != 0.0
  {
    var x := quantity / step;
    var down := x - x.Floor as real;
    down <= 0.000000001 || 1.0 - down <= 0.000000001
  }

  predicate LeverageAllowed(e: Envelope, equity: real, r: RiskRequest, reserved3x: real) {
    && (e.leverageNeedsApproval ==> r.approved)
    && r.existing3x + r.pending3x + reserved3x + r.order.quantity * r.unitPrice <= e.max3xWeight * equity
  }

  predicate PolicyMatches(d: Domain, r: RiskRequest) {
    && r.policy.preference == d.preference && r.policy.version == d.version && r.policy.source == d.source
    && r.policy.perTradeFraction == r.fraction && r.policy.totalLimit >= 0.0
    && r.policy.floor == r.floor && r.policy.costBuffer == r.costBuffer
    && (if d.kind.FtmoSimulated?
        then r.policy.contractFloor.Some? && r.policy.contractFloor.value > 0.0
             && r.floor >= r.policy.contractFloor.value && r.fraction <= 0.005
        else r.policy.contractFloor.None?)
  }

  /** `reservedRisk` and `reserved3x` are the sums over all reservations that the caller has computed. */
  function DecideAccountRisk(c: Config, s: State, r: RiskRequest, reservedRisk: real, reserved3x: real): Option<Data> {
    if HasUnresolved(s) || !BoundAndVerified(c, s) || s.equity.None? then None
    else
      var domain := c.domain.value;
      var q := s.equity.value;
      var digest := OrderDigest(r.order);
      if !SnapshotMatches(q, r.snapshot) || q.peak <= 0.0 then None
      else
        var envelope := EvaluateEnvelope(q.protectedEquity, Some(DrawdownFrom(q.equity, q.peak)));
        var existing := s.positionRisk + reservedRisk;
        var n := r.snapshot;
        if !envelope.newRiskAllowed || !OrderValid(c, r.order) then None
        else if !(q.valuationAt <= c.observedAt <= c.decisionAt < q.validUntil) then None
        else if n.accountId != c.account || r.pending3x != q.pending3x then None
        else if !(r.factor == 1.0 || r.factor == 3.0) || r.unitPrice <= 0.0 || r.existing3x < 0.0 || r.pending3x < 0.0
             || r.existing3x != q.position3x then None
        else if r.factor == 3.0 && !LeverageAllowed(envelope, q.equity, r, reserved3x) then None
        else
          var most := MaximumRiskQuantity(r.amount, r.lossPerUnit, r.fee, r.step);
          if r.amount < 0.0 || most.None? then None
          else if r.order.quantity > most.value || !StepAligned(r.order.quantity, r.step) then None
          else if r.amount <= 0.0 || digest in s.reservations || !PolicyMatches(domain, r) then None
          else
            var budget := AvailableNewRiskBudget(n.complete, n.currency == domain.currency, n.balance, n.equity,
                                                 r.floor, existing, r.costBuffer, r.fraction);
            if budget.None? || r.amount > budget.value || existing + r.amount > r.policy.totalLimit then None
            else Some(RiskReserved(RiskFacts(
              digest, r.amount, domain.currency, n.valuationAt, n.source,
              if r.factor == 3.0 then r.order.quantity * r.unitPrice else 0.0,
              r.order.quantity, r.fee, r.lossPerUnit, r.step, r.fraction, r.factor, r.unitPrice,
              r.existing3x, r.pending3x, r.floor, r.costBuffer, r.approved, r.policy)))
  }

  // ----- reconcile_account_risk -----

  function DecideReconcile(c: Config, s: State, attempt: Id, filled: real, fee: real, positionRisk: real,
                           source: Id): Option<Data> {
    if !BoundAndVerified(c, s) || !ReconcileFactsAgree(s, attempt, filled, fee, positionRisk, source) then None
    else Some(RiskReconciled(attempt, filled, fee, positionRisk, source))
  }

  // ----- record_circuit_breaker_open -----

  function DecideBreaker(c: Config, s: State, b: BrakeSnapshot): Option<Data> {
    if !HardBrakeTriggered(b) || b.equity.value < 0.0 || s.breakerOpen then None
    else
      var peak := if b.peak.Some? && b.peak.value <= 0.0 then None else b.peak;
      var drawdown := if EvaluateEnvelope(b.equity.value, b.drawdown).invalidDrawdown then None else b.drawdown;
      if !NonNegativeOption(drawdown) then None
      else Some(BreakerOpened(b.equity.value, peak, drawdown, c.owner, c.profile))
  }

  // ----- record_observation -----

  /** What the broker wrapper reported; `malformed` stands for a field that does not parse. */
  datatype Report = Report(status: BrokerStatus, brokerOrder: Option<Id>, filled: real, price: Option<real>,
      malformed: bool)

  /** An exception from the broker call: no status, no broker order, nothing filled. */
  const NO_REPORT := Report(Other(0), None, 0.0, None, false)

  /** The status text "Unknown" that replaces an unusable report. */
  const UNKNOWN_STATUS := Other(1)

  predicate ReportInvalid(a: Attempt, r: Report) {
    || r.malformed || r.filled < 0.0 || !NonNegativeOption(r.price)
    || r.filled < a.filled || r.filled > a.preparation.quantity
    || (BrokerOrderOf(a).Some? && r.brokerOrder != BrokerOrderOf(a))
  }

  function ObservationFrom(a: Attempt, r: Report): Observation {
    var invalid := ReportInvalid(a, r);
    var status := if invalid then UNKNOWN_STATUS else r.status;
    var order := if invalid then BrokerOrderOf(a) else r.brokerOrder;
    var filled := if invalid then a.filled else r.filled;
    var price := if !invalid then r.price else if a.observation.Some? then a.observation.value.price else None;
    Observation(status, order, filled, price, CertaintyOf(status, order, filled, price, a.preparation.quantity))
  }

  function DecideObservation(a: Attempt, attempt: Id, r: Report, recordedAt: Option<Time>): Option<Data> {
    var o := ObservationFrom(a, r);
    if a.observation == Some(o) || a.certainty == UNKNOWN || a.certainty == TERMINAL then None
    else
      var stamp := if recordedAt.Some? && a.lastRecordedAt.Some? && recordedAt.value < a.lastRecordedAt.value
                   then None else recordedAt;
      Some(Observed(attempt, o, stamp))
  }

  // ----- All writers together -----

  datatype Call =
    | Bind(order: Order, newRisk: bool)
    | ReserveOrder(order: Order, newRisk: bool, attempt: Id, fence: Id)
    | ReserveAfterBind(order: Order, newRisk: bool, attempt: Id, fence: Id)
    | ReserveReduction(order: Order, hardBrake: bool, attempt: Id, fence: Id)
    | RecordEquity(snapshot: Snapshot, cashFlow: real, baseline: bool)
    | ReserveRisk(request: RiskRequest)
    | ReconcileRisk(reconciled: Id, filled: real, fee: real, positionRisk: real, source: Id)
    | OpenBreaker(brake: BrakeSnapshot)
    | RecordObservation(observed: Id, report: Report, recordedAt: Option<Time>)

  ghost function ReservedRisk(s: State): real {
    MapSum(map k | k in s.reservations :: s.reservations[k].remaining)
  }

  ghost function Reserved3x(s: State): real {
    MapSum(map k | k in s.reservations :: s.reservations[k].remaining3x)
  }

  /** The event data the call wants to create, or None when the call is refused or has nothing to write. */
  ghost function Decide(c: Config, s: State, call: Call): Option<Data> {
    match call
    case Bind(o, newRisk) => DecideBind(c, s, o, newRisk)
    case ReserveOrder(o, newRisk, attempt, fence) => DecideReserve(c, s, o, newRisk, attempt, fence)
    case ReserveAfterBind(o, newRisk, attempt, fence) => DecidePreparation(c, s, o, newRisk, attempt, fence)
    case ReserveReduction(o, brake, attempt, fence) => DecideReduction(c, s, o, brake, attempt, fence)
    case RecordEquity(n, cashFlow, baseline) => DecideEquity(c, s, n, cashFlow, baseline)
    case ReserveRisk(r) => DecideAccountRisk(c, s, r, ReservedRisk(s), Reserved3x(s))
    case ReconcileRisk(attempt, filled, fee, positionRisk, source) =>
      DecideReconcile(c, s, attempt, filled, fee, positionRisk, source)
    case OpenBreaker(b) => DecideBreaker(c, s, b)
    case RecordObservation(attempt, report, recordedAt) =>
      if attempt in s.attempts then DecideObservation(s.attempts[attempt], attempt, report, recordedAt) else None
  }

  predicate Mints(call: Call) {
    call.ReserveOrder? || call.ReserveAfterBind? || call.ReserveReduction?
  }

  /** The recorder accepts a snapshot with negative cash; the reducer does not. */
  predicate NegativeCash(d: Data) {
    d.EquityObserved? && d.snapshot.cash < 0.0
  }

  /** A new-risk preparation on a journal that already holds OPEN; the reducer rejects it. */
  predicate LateNewRisk(s: State, d: Data) {
    d.Prepared? && d.preparation.purpose.NewRisk? && s.breakerOpen
  }

  /** The two kinds of event that a writer creates and no reader accepts. */
  predicate Unreadable(s: State, d: Data) {
    NegativeCash(d) || LateNewRisk(s, d)
  }
}
