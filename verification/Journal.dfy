/**
 * The account submission journal: its events, the state they reduce to, and the reducer that
 * validates every event before it counts.
 */
module Journal {
  import opened Prelude
  import opened CapitalEnvelope

  // ----- Identity -----

  datatype Side = Buy | Sell

  /** The order facts that the order digest binds. */
  datatype Order = Order(
    account: Id, symbol: Id, side: Side, quantity: real, orderType: Id,
    limitPrice: Option<real>, timeInForce: Id, metadata: Id)

  /** Content identity of an order; the digest is modeled as injective, so it is the content. */
  datatype OrderDigest = OrderDigest(order: Order)

  /** Content identity of an event: everything but the digest itself, including the previous digest. */
  datatype EventDigest = Genesis | Sealed(account: Id, sequence: nat, previous: EventDigest, data: Data)

  // ----- Broker observations -----

  /** The broker statuses the journal tells apart; any other text is Other. */
  datatype BrokerStatus =
    | PendingSubmit | ApiPending | ApiPendingSubmit | Submitted | PreSubmitted
    | Partial | PartiallyFilled
    | Filled | RejectedUpper | RejectedLower | Cancelled | ApiCancelled
    | Other(text: Id)

  predicate IsAcknowledged(s: BrokerStatus) {
    s.PendingSubmit? || s.ApiPending? || s.ApiPendingSubmit? || s.Submitted? || s.PreSubmitted?
  }

  predicate IsPartial(s: BrokerStatus) {
    s.Partial? || s.PartiallyFilled?
  }

  predicate IsDead(s: BrokerStatus) {
    s.RejectedUpper? || s.RejectedLower? || s.Cancelled? || s.ApiCancelled?
  }

  datatype Certainty = PREPARED | KNOWN_PENDING | TERMINAL | UNKNOWN

  datatype Observation = Observation(
    status: BrokerStatus, brokerOrder: Option<Id>, filled: real, price: Option<real>, certainty: Certainty)

  function CertaintyOf(status: BrokerStatus, brokerOrder: Option<Id>, filled: real, price: Option<real>,
                       quantity: real): Certainty {
    if filled > quantity || (filled > 0.0 && (price.None? || price.value <= 0.0)) then UNKNOWN
    else if IsDead(status) then TERMINAL
    else if brokerOrder.None? then UNKNOWN
    else if status.Filled? then (if filled == quantity then TERMINAL else UNKNOWN)
    else if IsPartial(status) then (if 0.0 < filled < quantity then KNOWN_PENDING else UNKNOWN)
    else if IsAcknowledged(status) then KNOWN_PENDING
    else UNKNOWN
  }

  // ----- Event data -----

  datatype Binding = Binding(domainKey: Id, accountType: Id, currency: Id)

  datatype EvidenceOrder = EvidenceOrder(
    attempt: Id, brokerOrder: Id, journalObservation: EventDigest,
    remainingQuantity: real, remainingFee: real, pending3x: real)

  datatype Evidence = Evidence(
    domainKey: Id, account: Id, currency: Id, source: Id, valuationAt: Time,
    observedThrough: Time, orders: seq<EvidenceOrder>)

  datatype Equity = Equity(
    equity: real, cashFlow: real, peak: real, protectedEquity: real, balance: real, cash: real,
    currency: Id, source: Id, domainKey: Id, account: Id, valuationAt: Time, validUntil: Time,
    coveredFills: map<Id, real>, coveredFees: map<Id, real>,
    positionRisk: real, position3x: real, pending3x: real,
    openOrdersComplete: bool, openOrdersEmpty: bool, positions: map<Id, real>,
    evidence: Option<Evidence>)

  datatype BudgetPolicy = BudgetPolicy(
    preference: Id, version: Id, source: Id, perTradeFraction: real, totalLimit: real,
    floor: real, costBuffer: real, contractFloor: Option<real>)

  datatype RiskFacts = RiskFacts(
    order: OrderDigest, amount: real, currency: Id, valuationAt: Time, source: Id, reserved3x: real,
    quantity: real, fee: real, lossPerUnit: real, step: real, fraction: real, factor: real, unitPrice: real,
    existing3x: real, pending3x: real, floor: real, costBuffer: real, approved: bool, policy: BudgetPolicy)

  /** A submission is plain, an account-brake reduction bound to one snapshot, or declared new risk. */
  datatype Purpose = Plain | Reduction(source: Id) | NewRisk

  datatype Preparation = Preparation(
    attempt: Id, fence: Id, intent: Id, order: OrderDigest, release: Id, owner: Id, profile: Id,
    quantity: real, purpose: Purpose)

  datatype Data =
    | BreakerOpened(equityUsd: real, peakUsd: Option<real>, drawdown: Option<real>, owner: Id, profile: Id)
    | DomainBound(binding: Binding)
    | EquityObserved(snapshot: Equity)
    | RiskReserved(facts: RiskFacts)
    | RiskReconciled(attempt: Id, filled: real, fee: real, positionRisk: real, source: Id)
    | Prepared(preparation: Preparation)
    | Observed(attempt: Id, observation: Observation, recordedAt: Option<Time>)

  datatype Event = Event(account: Id, sequence: nat, previous: EventDigest, data: Data, digest: EventDigest)

  function DigestOf(account: Id, sequence: nat, previous: EventDigest, data: Data): EventDigest {
    Sealed(account, sequence, previous, data)
  }

  // ----- Reduced state -----

  datatype Attempt = Attempt(
    preparation: Preparation, generation: nat, digest: EventDigest, certainty: Certainty,
    observation: Option<Observation>, filled: real, preparedSnapshot: Option<Equity>,
    lastRecordedAt: Option<Time>, observationDigest: Option<EventDigest>, observationRecordedAt: Option<Time>)

  datatype Reservation = Reservation(
    facts: RiskFacts, remaining: real, remaining3x: real, reconciledFilled: real, actualFee: real)

  datatype State = State(
    generation: nat, head: EventDigest, attempts: map<Id, Attempt>, binding: Option<Binding>,
    reservations: map<OrderDigest, Reservation>, equity: Option<Equity>, positionRisk: real, breakerOpen: bool)

  const EMPTY_STATE := State(0, Genesis, map[], None, map[], None, 0.0, false)

  /** The broker order known for the attempt so far. */
  function BrokerOrderOf(a: Attempt): Option<Id> {
    if a.observation.Some? then a.observation.value.brokerOrder else None
  }

  predicate Unresolved(c: Certainty) {
    c == PREPARED || c == UNKNOWN
  }

  predicate HasUnresolved(s: State) {
    exists a :: a in s.attempts && Unresolved(s.attempts[a].certainty)
  }

  predicate SameIntentAndOrder(s: State, intent: Id, order: OrderDigest) {
    exists a :: a in s.attempts && s.attempts[a].preparation.intent == intent
        && s.attempts[a].preparation.order == order
  }

  /** Some submission other than a reduction already used the reservation of this order. */
  predicate ReservationUsed(s: State, order: OrderDigest) {
    exists a :: a in s.attempts && s.attempts[a].preparation.order == order
        && !s.attempts[a].preparation.purpose.Reduction?
  }

  predicate NonNegativeValues(m: map<Id, real>) {
    forall k :: k in m ==> m[k] >= 0.0
  }

  predicate NonNegativeOption(x: Option<real>) {
    x.None? || x.value >= 0.0
  }

  // ----- Pending order evidence, as replay checks it -----

  /** One evidence item agrees with the journal's own record of the attempt. */
  predicate EvidenceOrderSound(o: EvidenceOrder, through: Time, attempts: map<Id, Attempt>,
                               reservations: map<OrderDigest, Reservation>) {
    && o.attempt in attempts
    && var a := attempts[o.attempt];
    && a.certainty == KNOWN_PENDING
    && a.observation.Some? && a.observation.value.brokerOrder == Some(o.brokerOrder)
    && a.observationRecordedAt.Some? && a.observationRecordedAt.value <= through
    && a.observationDigest == Some(o.journalObservation)
    && a.preparation.order in reservations
    && reservations[a.preparation.order].reconciledFilled == a.filled
    && o.remainingQuantity == a.preparation.quantity - a.filled
    && o.remainingQuantity >= 0.0 && o.remainingFee >= 0.0 && o.pending3x >= 0.0
  }

  function Exposure3x(orders: seq<EvidenceOrder>): real {
    if orders == [] then 0.0 else Exposure3x(orders[..|orders| - 1]) + orders[|orders| - 1].pending3x
  }

  predicate EvidenceAccepted(e: Evidence, snapshot: Equity, attempts: map<Id, Attempt>,
                             reservations: map<OrderDigest, Reservation>) {
    && e.domainKey == snapshot.domainKey && e.account == snapshot.account && e.currency == snapshot.currency
    && e.source == snapshot.source && e.valuationAt == snapshot.valuationAt
    && e.observedThrough <= e.valuationAt
    && (forall i :: 0 <= i < |e.orders| ==> EvidenceOrderSound(e.orders[i], e.observedThrough, attempts, reservations))
    && (forall i, j :: 0 <= i < j < |e.orders| ==>
          e.orders[i].attempt != e.orders[j].attempt && e.orders[i].brokerOrder != e.orders[j].brokerOrder)
    && snapshot.pending3x >= 0.0
    && Exposure3x(e.orders) <= snapshot.pending3x
  }

  // ----- The reducer, one function per event kind -----

  function ApplyBreaker(s: State, d: Data): Option<State>
    requires d.BreakerOpened?
  {
    if s.breakerOpen || d.equityUsd < 0.0 || !NonNegativeOption(d.peakUsd) || !NonNegativeOption(d.drawdown) then None
    else
      var drawdown := if d.drawdown.None? && d.peakUsd.Some? && d.peakUsd.value > 0.0
                      then Some(DrawdownFrom(d.equityUsd, d.peakUsd.value)) else d.drawdown;
      if !EvaluateEnvelope(d.equityUsd, drawdown).brakeTripped then None
      else Some(s.(breakerOpen := true))
  }

  function ExpectedPeak(previous: Option<Equity>, equity: real, cashFlow: real): real {
    if previous.None? then equity else Max(equity, previous.value.peak + cashFlow)
  }

  function ExpectedProtected(previous: Option<Equity>, equity: real): real {
    if previous.None? then equity else Max(equity, previous.value.protectedEquity)
  }

  predicate EquityFactsValid(s: State, account: Id, q: Equity) {
    && s.binding.Some?
    && q.equity >= 0.0 && q.balance >= 0.0 && q.cash >= 0.0
    && q.domainKey == s.binding.value.domainKey && q.account == account
    && q.openOrdersComplete && q.pending3x >= 0.0 && NonNegativeValues(q.positions)
    && q.validUntil > q.valuationAt
    && q.cashFlow >= 0.0 && q.peak >= 0.0
    && NonNegativeValues(q.coveredFills) && NonNegativeValues(q.coveredFees)
    && q.position3x >= 0.0 && q.positionRisk >= 0.0
    && q.currency == s.binding.value.currency
  }

  function ApplyEquity(s: State, account: Id, q: Equity): Option<State> {
    if !EquityFactsValid(s, account, q) then None
    else if q.protectedEquity != ExpectedProtected(s.equity, q.equity) then None
    else if q.peak != ExpectedPeak(s.equity, q.equity, q.cashFlow) then None
    else if s.equity.Some? && q.valuationAt <= s.equity.value.valuationAt then None
    else if q.evidence.Some? && !EvidenceAccepted(q.evidence.value, q, s.attempts, s.reservations) then None
    else Some(s.(equity := Some(q), positionRisk := q.positionRisk))
  }

  function ApplyReservation(s: State, f: RiskFacts): Option<State> {
    if f.amount <= 0.0 || f.reserved3x < 0.0 || f.order in s.reservations || s.binding.None? then None
    else if f.currency != s.binding.value.currency then None
    else if f.lossPerUnit < 0.0 || f.step < 0.0 || f.fraction < 0.0 || f.factor < 0.0 || f.unitPrice < 0.0
         || f.existing3x < 0.0 || f.pending3x < 0.0 || f.floor < 0.0 || f.costBuffer < 0.0 then None
    else if f.quantity <= 0.0 || f.fee < 0.0 || f.fee > f.amount then None
    else Some(s.(reservations := s.reservations[f.order := Reservation(f, f.amount, f.reserved3x, 0.0, 0.0)]))
  }

  /** What stays reserved while the order is still working, after `filled` units and `fee` are accounted for. */
  function WorkingRisk(f: RiskFacts, filled: real, fee: real): real
    requires f.quantity != 0.0
  {
    (f.amount - f.fee) * (1.0 - filled / f.quantity) + Max(0.0, f.fee - fee)
  }

  function Working3x(f: RiskFacts, filled: real): real
    requires f.quantity != 0.0
  {
    f.reserved3x * (1.0 - filled / f.quantity)
  }

  /** The facts that let a recorded snapshot take over risk from a reservation. */
  predicate ReconcileFactsAgree(s: State, attempt: Id, filled: real, fee: real, positionRisk: real, source: Id) {
    && attempt in s.attempts && s.equity.Some?
    && var a := s.attempts[attempt];
    && var q := s.equity.value;
    && a.preparation.order in s.reservations
    && var r := s.reservations[a.preparation.order];
    && source == q.source
    && (a.certainty == TERMINAL || a.certainty == KNOWN_PENDING)
    && filled >= 0.0 && fee >= 0.0 && positionRisk >= 0.0
    && attempt in q.coveredFills && q.coveredFills[attempt] == filled
    && attempt in q.coveredFees && q.coveredFees[attempt] == fee
    && q.positionRisk == positionRisk
    && q.source != r.facts.source && q.valuationAt > r.facts.valuationAt
    && filled == a.filled && filled >= r.reconciledFilled && fee >= r.actualFee
  }

  function ApplyReconcile(s: State, d: Data): Option<State>
    requires d.RiskReconciled?
  {
    if !ReconcileFactsAgree(s, d.attempt, d.filled, d.fee, d.positionRisk, d.source) then None
    else
      var a := s.attempts[d.attempt];
      var r := s.reservations[a.preparation.order];
      if r.facts.quantity == 0.0 then None  // the division below would raise
      else
        var done := a.certainty == TERMINAL;
        var r' := r.(remaining := if done then 0.0 else WorkingRisk(r.facts, d.filled, d.fee),
                     remaining3x := if done then 0.0 else Working3x(r.facts, d.filled),
                     reconciledFilled := d.filled, actualFee := d.fee);
        Some(s.(reservations := s.reservations[a.preparation.order := r'], positionRisk := d.positionRisk))
  }

  predicate PreparationAllowed(s: State, p: Preparation) {
    && !(p.purpose.NewRisk? && s.breakerOpen)
    && p.quantity > 0.0 && !HasUnresolved(s)
    && p.attempt !in s.attempts && !SameIntentAndOrder(s, p.intent, p.order)
    && (s.binding.Some? && !p.purpose.Reduction? ==> p.order in s.reservations && !ReservationUsed(s, p.order))
  }

  function ApplyPrepared(s: State, p: Preparation, digest: EventDigest): Option<State> {
    if !PreparationAllowed(s, p) then None
    else
      var a := Attempt(p, s.generation + 1, digest, PREPARED, None, 0.0, s.equity, None, None, None);
      Some(s.(attempts := s.attempts[p.attempt := a]))
  }

  predicate ObservationAllowed(a: Attempt, o: Observation, recordedAt: Option<Time>) {
    && o.filled >= 0.0 && NonNegativeOption(o.price)
    && o.certainty == CertaintyOf(o.status, o.brokerOrder, o.filled, o.price, a.preparation.quantity)
    && a.filled <= o.filled <= a.preparation.quantity
    && a.certainty != UNKNOWN && a.certainty != TERMINAL
    && (a.observation.Some? && a.observation.value.brokerOrder.Some? ==>
        o.brokerOrder == a.observation.value.brokerOrder)
    && (recordedAt.Some? && a.lastRecordedAt.Some? ==> recordedAt.value >= a.lastRecordedAt.value)
  }

  function AfterObservation(a: Attempt, o: Observation, recordedAt: Option<Time>, digest: EventDigest): Attempt {
    a.(certainty := o.certainty, observation := Some(o), filled := o.filled,
       lastRecordedAt := if recordedAt.Some? then recordedAt else a.lastRecordedAt,
       observationDigest := Some(digest), observationRecordedAt := recordedAt)
  }

  function ApplyObserved(s: State, d: Data, digest: EventDigest): Option<State>
    requires d.Observed?
  {
    if d.attempt !in s.attempts || !ObservationAllowed(s.attempts[d.attempt], d.observation, d.recordedAt) then None
    else
      var after := AfterObservation(s.attempts[d.attempt], d.observation, d.recordedAt, digest);
      Some(s.(attempts := s.attempts[d.attempt := after]))
  }

  /** Validates one event's data against the state and returns the state it leads to. */
  function ApplyData(s: State, account: Id, d: Data, digest: EventDigest): Option<State> {
    match d
    case BreakerOpened(_, _, _, _, _) => ApplyBreaker(s, d)
    case DomainBound(b) => if s.binding.Some? then None else Some(s.(binding := Some(b)))
    case EquityObserved(q) => ApplyEquity(s, account, q)
    case RiskReserved(f) => ApplyReservation(s, f)
    case RiskReconciled(_, _, _, _, _) => ApplyReconcile(s, d)
    case Prepared(p) => ApplyPrepared(s, p, digest)
    case Observed(_, _, _) => ApplyObserved(s, d, digest)
  }

  predicate HeaderValid(s: State, account: Id, e: Event) {
    && e.account == account && e.sequence == s.generation + 1 && e.previous == s.head
    && e.digest == DigestOf(e.account, e.sequence, e.previous, e.data)
  }

  function Apply(s: State, account: Id, e: Event): Option<State> {
    if !HeaderValid(s, account, e) then None
    else match ApplyData(s, account, e.data, e.digest)
      case None => None
      case Some(t) => Some(t.(generation := e.sequence, head := e.digest))
  }

  // ----- Whole journals -----

  /** A journal read so far: the last good state, and whether every event was accepted. */
  datatype Folded = Folded(state: State, readable: bool)

  function Fold(account: Id, log: seq<Event>): Folded {
    if log == [] then Folded(EMPTY_STATE, true)
    else
      var before := Fold(account, log[..|log| - 1]);
      if !before.readable then before
      else match Apply(before.state, account, log[|log| - 1])
        case None => before.(readable := false)
        case Some(s) => Folded(s, true)
  }

  /** Reading succeeds with the reduced state, or fails as a whole. */
  function Replay(account: Id, log: seq<Event>): Option<State> {
    var f := Fold(account, log);
    if f.readable then Some(f.state) else None
  }

  /** The event a writer builds on top of a state it has read. */
  function Seal(s: State, account: Id, d: Data): Event {
    Event(account, s.generation + 1, s.head, d, DigestOf(account, s.generation + 1, s.head, d))
  }

  // ----- The loops of the source, proved against the functions above -----

  method ReadState(account: Id, log: seq<Event>) returns (r: Option<State>)
    ensures r == Replay(account, log)
  {
    var state := EMPTY_STATE;
    for i := 0 to |log|
      invariant Fold(account, log[..i]) == Folded(state, true)
    {
      assert log[..i + 1][..i] == log[..i];
      var next := Apply(state, account, log[i]);
      if next.None? {
        FoldStaysUnreadable(account, log, i + 1);
        return None;
      }
      state := next.value;
    }
    assert log[..|log|] == log;
    return Some(state);
  }

  lemma {:induction false} FoldStaysUnreadable(account: Id, log: seq<Event>, n: nat)
    requires n <= |log| && !Fold(account, log[..n]).readable
    ensures Fold(account, log) == Fold(account, log[..n])
    decreases |log|
  {
    if n < |log| {
      assert log[..|log| - 1][..n] == log[..n];
      FoldStaysUnreadable(account, log[..|log| - 1], n);
    } else {
      assert log[..n] == log;
    }
  }

  method ValidatePendingOrderEvidence(e: Evidence, snapshot: Equity, attempts: map<Id, Attempt>,
                                      reservations: map<OrderDigest, Reservation>)
    returns (accepted: bool)
    ensures accepted == EvidenceAccepted(e, snapshot, attempts, reservations)
  {
    if e.domainKey != snapshot.domainKey || e.account != snapshot.account || e.currency != snapshot.currency
       || e.source != snapshot.source || e.valuationAt != snapshot.valuationAt || e.observedThrough > e.valuationAt {
      return false;
    }
    hide EvidenceOrderSound;
    var seenAttempts: set<Id>, seenOrders: set<Id> := {}, {};
    var total := 0.0;
    for i := 0 to |e.orders|
      invariant seenAttempts == set k | 0 <= k < i :: e.orders[k].attempt
      invariant seenOrders == set k | 0 <= k < i :: e.orders[k].brokerOrder
      invariant total == Exposure3x(e.orders[..i])
      invariant forall k :: 0 <= k < i ==> EvidenceOrderSound(e.orders[k], e.observedThrough, attempts, reservations)
      invariant forall k, j :: 0 <= k < j < i ==>
        e.orders[k].attempt != e.orders[j].attempt && e.orders[k].brokerOrder != e.orders[j].brokerOrder
    {
      var order := e.orders[i];
      if order.attempt in seenAttempts || order.brokerOrder in seenOrders {
        return false;
      }
      seenAttempts := seenAttempts + {order.attempt};
      seenOrders := seenOrders + {order.brokerOrder};
      if !EvidenceOrderSound(order, e.observedThrough, attempts, reservations) {
        return false;
      }
      assert e.orders[..i + 1][..i] == e.orders[..i];
      total := total + order.pending3x;
    }
    assert e.orders[..|e.orders|] == e.orders;
    return snapshot.pending3x >= 0.0 && total <= snapshot.pending3x;
  }
}
