/**
 * When each writer writes, and what: conditions on the caller's arguments and on the events of the journal that
 * was read, which a caller could check beforehand.
 */
module Answers {
  import opened Prelude
  import opened CapitalEnvelope
  import opened RiskBudget
  import opened Journal
  import opened JournalLaws
  import opened Writers
  import opened Replayability
  import opened RiskAccounting
  import opened SnapshotLaws
  import opened LastWord
  import opened JournalFacts
  import opened Readable

  // ----- The caller and the account -----

  predicate OrderFits(c: Config, o: Order) {
    o.account == c.account && o.quantity > 0.0 && NonNegative(o.limitPrice)
  }

  /** The journal is bound to the domain that this session has verified. */
  predicate SpeaksFor(c: Config, log: seq<Event>) {
    && c.domain.Some? && c.domainVerified
    && BindingIn(log) == Some(Binding(c.domain.value.key, c.domain.value.accountType, c.domain.value.currency))
  }

  lemma AccountAnswers(c: Config, log: seq<Event>)
    requires Fold(c.account, log).readable
    ensures
      var s := Fold(c.account, log).state;
      && (BoundAndVerified(c, s) <==> SpeaksFor(c, log))
      && s.binding == BindingIn(log) && s.equity == SnapshotIn(log) && s.positionRisk == PositionRiskIn(log)
      && (s.breakerOpen <==> OpenIn(log))
  {
    AccountIsItsLastWord(c.account, log);
  }

  // ----- bind and reserve -----

  /** Reserving binds the domain first on an account that is not bound yet. */
  lemma BindAnswersExactly(c: Config, log: seq<Event>, o: Order, newRisk: bool)
    requires Fold(c.account, log).readable
    ensures
      var d := Decide(c, Fold(c.account, log).state, Bind(o, newRisk));
      && (d.Some? <==>
          OrderFits(c, o) && !(newRisk && OpenIn(log)) && c.domain.Some? && c.domainVerified && BindingIn(log).None?)
      && (d.Some? ==>
          d.value == DomainBound(Binding(c.domain.value.key, c.domain.value.accountType, c.domain.value.currency)))
  {
    AccountAnswers(c, log);
    hide Fold, OpenIn;
  }

  /** Risk is reserved for the order, against the current snapshot and no other. */
  predicate NamesCurrentSnapshot(log: seq<Event>, k: OrderDigest) {
    && ReservedIn(log, k).Some? && SnapshotIn(log).Some?
    && ReservedIn(log, k).value.source == SnapshotIn(log).value.source
    && ReservedIn(log, k).value.valuationAt == SnapshotIn(log).value.valuationAt
  }

  /** The account is free for this order: settled, not submitted before, and with unused current risk if it is bound. */
  ghost predicate MayReserve(c: Config, log: seq<Event>, o: Order) {
    && OrderFits(c, o) && AllSettled(log) && !SubmittedIn(log, c.intent, OrderDigest(o))
    && (if c.domain.None? then BindingIn(log).None?
        else SpeaksFor(c, log) && NamesCurrentSnapshot(log, OrderDigest(o)) && !RiskUsedIn(log, OrderDigest(o)))
  }

  predicate PreparesOrder(d: Data, c: Config, o: Order, attempt: Id, fence: Id, purpose: Purpose) {
    && d.Prepared?
    && var p := d.preparation;
    && p.attempt == attempt && p.fence == fence && p.order.order == o && p.quantity == o.quantity
    && p.purpose == purpose && p.intent == c.intent && p.release == c.release && p.owner == c.owner
    && p.profile == c.profile
  }

  /** The first read refuses new risk behind OPEN; the second read of a binding call no longer does. */
  lemma ReserveAnswersExactly(c: Config, log: seq<Event>, o: Order, newRisk: bool, attempt: Id, fence: Id)
    requires Fold(c.account, log).readable
    ensures
      var s := Fold(c.account, log).state;
      var first := Decide(c, s, ReserveOrder(o, newRisk, attempt, fence));
      var again := Decide(c, s, ReserveAfterBind(o, newRisk, attempt, fence));
      && (first.Some? <==> MayReserve(c, log, o) && !(newRisk && OpenIn(log)))
      && (again.Some? <==> MayReserve(c, log, o))
      && (first.Some? ==> PreparesOrder(first.value, c, o, attempt, fence, if newRisk then NewRisk else Plain))
      && (again.Some? ==> PreparesOrder(again.value, c, o, attempt, fence, if newRisk then NewRisk else Plain))
  {
    AccountAnswers(c, log);
    UnresolvedExactly(c.account, log);
    SubmittedExactly(c.account, log, c.intent, OrderDigest(o));
    ReservationsAgree(c.account, log, OrderDigest(o));
    hide Fold, OpenIn, HasUnresolved, AllSettled, SameIntentAndOrder, SubmittedIn, ReservationUsed, RiskUsedIn;
  }

  lemma FreshExactly(account: Id, log: seq<Event>, k: OrderDigest)
    requires Fold(account, log).readable
    ensures ReservationFresh(Fold(account, log).state, k) <==> NamesCurrentSnapshot(log, k)
  {
    AccountIsItsLastWord(account, log);
    ReservationsAgree(account, log, k);
    hide Fold, OpenIn, SnapshotIn, ReservedIn;
  }

  lemma AccountedIsCovered(s: State, k: OrderDigest)
    requires RiskAccounted(s) && k in s.reservations
    ensures
      var f := s.reservations[k].facts;
      f.amount >= k.order.quantity * f.lossPerUnit + f.fee
  {
    hide Working, Released, HasFilled, HasTerminalAttempt;
    assert ReservationAccounted(s, k);
  }

  lemma CurrentReservationIsWhole(account: Id, log: seq<Event>, k: OrderDigest)
    requires AdmittedJournal(log) && Fold(account, log).readable && NamesCurrentSnapshot(log, k)
    ensures
      var s := Fold(account, log).state;
      && ReservationFresh(s, k)
      && var r := s.reservations[k];
      && r == Reservation(r.facts, r.facts.amount, r.facts.reserved3x, 0.0, 0.0)
      && r.remaining >= k.order.quantity * r.facts.lossPerUnit + r.facts.fee
  {
    hide Fold, AdmittedJournal, SnapshotIn, ReservedIn, RiskAccounted, NamesCurrentSnapshot;
    FreshExactly(account, log, k);
    FreshReservationIsWhole(account, log, k);
    JournalStaysAccounted(account, log);
    AccountedIsCovered(Fold(account, log).state, k);
  }

  lemma UnusedMeansReductions(account: Id, log: seq<Event>, k: OrderDigest)
    requires Fold(account, log).readable && AllSettled(log) && !RiskUsedIn(log, k)
    ensures
      var s := Fold(account, log).state;
      forall id :: id in s.attempts && s.attempts[id].preparation.order == k ==>
        s.attempts[id].preparation.purpose.Reduction? && !Unresolved(s.attempts[id].certainty)
  {
    UnresolvedExactly(account, log);
    SubmittedExactly(account, log, 0, k);
    hide Fold, AllSettled, RiskUsedIn;
  }

  /**
   * A reserve call of a session with a domain is granted nothing without a reservation that names the current
   * snapshot, of which nothing has been released and which covers losing the whole order plus its fee.
   */
  lemma ReserveNeedsWholeReservation(c: Config, log: seq<Event>, o: Order, newRisk: bool, attempt: Id, fence: Id)
    requires AdmittedJournal(log) && Fold(c.account, log).readable && c.domain.Some?
    requires
      var s := Fold(c.account, log).state;
      || Decide(c, s, ReserveOrder(o, newRisk, attempt, fence)).Some?
      || Decide(c, s, ReserveAfterBind(o, newRisk, attempt, fence)).Some?
    ensures
      var s, k := Fold(c.account, log).state, OrderDigest(o);
      && k in s.reservations && s.equity.Some?
      && var r := s.reservations[k];
      && r.facts.source == s.equity.value.source && r.facts.valuationAt == s.equity.value.valuationAt
      && r == Reservation(r.facts, r.facts.amount, r.facts.reserved3x, 0.0, 0.0)
      && r.remaining >= o.quantity * r.facts.lossPerUnit + r.facts.fee
      && forall id :: id in s.attempts && s.attempts[id].preparation.order == k ==>
           s.attempts[id].preparation.purpose.Reduction? && !Unresolved(s.attempts[id].certainty)
  {
    hide Fold, Decide, AllSettled, SubmittedIn, RiskUsedIn, NamesCurrentSnapshot, AdmittedJournal, PreparesOrder;
    ReserveAnswersExactly(c, log, o, newRisk, attempt, fence);
    assert MayReserve(c, log, o);
    CurrentReservationIsWhole(c.account, log, OrderDigest(o));
    UnusedMeansReductions(c.account, log, OrderDigest(o));
  }

  // ----- reserve_reduction -----

  /** The fills of an attempt are covered by a snapshot taken after it was prepared, from another source. */
  predicate FillsCoveredIn(log: seq<Event>, id: Id, q: Equity) {
    && var p, last := PreparationIn(log, id), LastObservation(log, id);
    && p.Some? && last.Some? && 1 <= p.value.sequence <= |log|
    && var before := SnapshotIn(log[..p.value.sequence - 1]);
    && before.Some? && q.source != before.value.source && q.valuationAt > before.value.valuationAt
    && id in q.coveredFills && q.coveredFills[id] == last.value.data.observation.filled && id in q.coveredFees
  }

  predicate HasFills(log: seq<Event>, id: Id) {
    LastObservation(log, id).Some? && LastObservation(log, id).value.data.observation.filled > 0.0
  }

  ghost predicate AllFillsCovered(log: seq<Event>, q: Equity) {
    forall id :: PreparationIn(log, id).Some? && HasFills(log, id) ==> FillsCoveredIn(log, id, q)
  }

  /** A sale of no more than the snapshot shows as held, past the brake, with no order open anywhere. */
  ghost predicate MayReduce(c: Config, log: seq<Event>, o: Order, hardBrake: bool) {
    && hardBrake && SpeaksFor(c, log) && OrderFits(c, o) && SnapshotIn(log).Some?
    && var q := SnapshotIn(log).value;
    && q.openOrdersEmpty && q.valuationAt <= c.decisionAt < q.validUntil
    && FallenToBrake(q.equity, q.peak, q.protectedEquity)
    && o.side == Sell && o.symbol in q.positions && o.quantity <= q.positions[o.symbol]
    && AllOver(log) && AllFillsCovered(log, q) && !SubmittedIn(log, c.intent, OrderDigest(o))
  }

  lemma CoveredExactly(account: Id, log: seq<Event>, q: Equity)
    requires Fold(account, log).readable
    ensures FilledAttemptsCovered(Fold(account, log).state, q) <==> AllFillsCovered(log, q)
  {
    hide Fold, FillsCoveredIn, HasFills, AttemptAgrees;
    var s := Fold(account, log).state;
    forall id
      ensures id in s.attempts <==> PreparationIn(log, id).Some?
      ensures id in s.attempts ==> (HasFills(log, id) <==> s.attempts[id].filled > 0.0)
      ensures id in s.attempts && HasFills(log, id) ==> (FillsCoveredIn(log, id, q) <==> AttemptCovered(s, q, id))
    {
      OneCoveredExactly(account, log, q, id);
    }
    if !FilledAttemptsCovered(s, q) {
      var id :| id in s.attempts && s.attempts[id].filled > 0.0 && !AttemptCovered(s, q, id);
      assert PreparationIn(log, id).Some? && HasFills(log, id);
    }
  }

  predicate AttemptCovered(s: State, q: Equity, a: Id)
    requires a in s.attempts
  {
    && s.attempts[a].preparedSnapshot.Some?
    && a in q.coveredFills && q.coveredFills[a] == s.attempts[a].filled
    && a in q.coveredFees
    && q.source != s.attempts[a].preparedSnapshot.value.source
    && q.valuationAt > s.attempts[a].preparedSnapshot.value.valuationAt
  }

  lemma OneCoveredExactly(account: Id, log: seq<Event>, q: Equity, id: Id)
    requires Fold(account, log).readable
    ensures
      var s := Fold(account, log).state;
      && (id in s.attempts <==> PreparationIn(log, id).Some?)
      && (id in s.attempts ==> (HasFills(log, id) <==> s.attempts[id].filled > 0.0))
      && (id in s.attempts && HasFills(log, id) ==> (FillsCoveredIn(log, id, q) <==> AttemptCovered(s, q, id)))
  {
    AttemptsAreLastWords(account, log, id);
    hide Fold, LastStamp, SnapshotIn;
  }

  /** In a readable journal the current snapshot shows complete orders and no negative position. */
  lemma SnapshotIsSound(account: Id, log: seq<Event>)
    requires Fold(account, log).readable && SnapshotIn(log).Some?
    ensures
      var q := SnapshotIn(log).value;
      && q.openOrdersComplete && q.account == account && q.valuationAt < q.validUntil && q.balance >= 0.0
      && q.positionRisk >= 0.0 && q.pending3x >= 0.0 && q.position3x >= 0.0
      && (forall k :: k in q.positions ==> q.positions[k] >= 0.0)
  {
    AccountIsItsLastWord(account, log);
    var _ := SnapshotOrigin(account, log);
  }

  lemma ReductionAnswersExactly(c: Config, log: seq<Event>, o: Order, hardBrake: bool, attempt: Id, fence: Id)
    requires Fold(c.account, log).readable
    ensures
      var d := Decide(c, Fold(c.account, log).state, ReserveReduction(o, hardBrake, attempt, fence));
      && (d.Some? <==> MayReduce(c, log, o, hardBrake))
      && (d.Some? ==> PreparesOrder(d.value, c, o, attempt, fence, Reduction(SnapshotIn(log).value.source)))
  {
    var s := Fold(c.account, log).state;
    AccountAnswers(c, log);
    SettledOrOver(c.account, log);
    SubmittedExactly(c.account, log, c.intent, OrderDigest(o));
    if SnapshotIn(log).Some? {
      var q := SnapshotIn(log).value;
      SnapshotIsSound(c.account, log);
      CoveredExactly(c.account, log, q);
      if q.peak > 0.0 {
        EnvelopeBrakesExactly(q.equity, q.peak, q.protectedEquity);
      }
    }
    hide Fold, OpenIn, AllOver, SameIntentAndOrder, SubmittedIn, FilledAttemptsCovered, AllFillsCovered,
      EvaluateEnvelope, FallenToBrake, HasUnresolved;
  }

  lemma SettledOrOver(account: Id, log: seq<Event>)
    requires Fold(account, log).readable
    ensures
      var s := Fold(account, log).state;
      AllOver(log) <==>
        !HasUnresolved(s) && !(exists a :: a in s.attempts && s.attempts[a].certainty == KNOWN_PENDING)
  {
    NotOverExactly(account, log);
    hide Fold, AllOver;
    var s := Fold(account, log).state;
    if a :| a in s.attempts && s.attempts[a].certainty != TERMINAL {
      assert Unresolved(s.attempts[a].certainty) || s.attempts[a].certainty == KNOWN_PENDING;
    }
  }

  // ----- record_account_equity -----

  /** A complete, current snapshot of this account, newer than the last, with nothing negative and fitting evidence. */
  ghost predicate MayRecord(c: Config, log: seq<Event>, n: Snapshot, cashFlow: real, baseline: bool) {
    && SpeaksFor(c, log)
    && var domain := c.domain.value;
    && n.complete && n.openOrdersComplete
    && n.domainKey == domain.key && n.accountId == c.account && n.currency == domain.currency
    && n.valuationAt <= c.observedAt <= c.decisionAt < n.validUntil
    && n.equity >= 0.0 && n.balance >= 0.0 && cashFlow >= 0.0
    && n.positionRisk >= 0.0 && n.position3x >= 0.0 && n.pending3x >= 0.0
    && AllNonNegative(n.positions) && AllNonNegative(n.coveredFills) && AllNonNegative(n.coveredFees)
    && (if SnapshotIn(log).None? then baseline else n.valuationAt > SnapshotIn(log).value.valuationAt)
    && (n.evidence.Some? ==>
          EvidenceFits(log, n.evidence.value, n.domainKey, c.account, domain.currency, n.source, n.valuationAt,
                       n.pending3x))
  }

  /** The recorded snapshot is the caller's, fact by fact. */
  predicate RecordsSupplied(c: Config, n: Snapshot, cashFlow: real, q: Equity)
    requires c.domain.Some?
  {
    && q.equity == n.equity && q.cashFlow == cashFlow && q.balance == n.balance && q.cash == n.cash
    && q.currency == c.domain.value.currency && q.domainKey == c.domain.value.key && q.account == c.account
    && q.source == n.source && q.valuationAt == n.valuationAt && q.validUntil == n.validUntil
    && q.coveredFills == n.coveredFills && q.coveredFees == n.coveredFees
    && q.positionRisk == n.positionRisk && q.position3x == n.position3x && q.pending3x == n.pending3x
    && q.openOrdersComplete && q.openOrdersEmpty == n.openOrdersEmpty && q.positions == n.positions
    && q.evidence == n.evidence
  }

  lemma BudgetOfSnapshot(domain: Domain, n: Snapshot)
    ensures SnapshotBudget(domain, n).Some? <==> n.complete && n.currency == domain.currency && n.balance >= 0.0
  {
  }

  lemma WatermarksFollow(log: seq<Event>, s: State, q: Equity, equity: real, cashFlow: real)
    requires s.equity == SnapshotIn(log) && q.equity == equity && q.cashFlow == cashFlow
    requires q.peak == ExpectedPeak(s.equity, equity, cashFlow)
    requires q.protectedEquity == ExpectedProtected(s.equity, equity)
    requires s.equity.Some? ==> q.valuationAt > s.equity.value.valuationAt
    ensures FollowsSnapshot(log, q)
  {
    hide SnapshotIn;
  }

  /** What is recorded is what was supplied, and the watermarks follow from it and from the supplied cash flow. */
  lemma RecordAnswersExactly(c: Config, log: seq<Event>, n: Snapshot, cashFlow: real, baseline: bool)
    requires Fold(c.account, log).readable
    ensures
      var d := Decide(c, Fold(c.account, log).state, RecordEquity(n, cashFlow, baseline));
      && (d.Some? <==> MayRecord(c, log, n, cashFlow, baseline))
      && (d.Some? ==>
            && d.value.EquityObserved? && RecordsSupplied(c, n, cashFlow, d.value.snapshot)
            && FollowsSnapshot(log, d.value.snapshot))
  {
    AccountAnswers(c, log);
    var s := Fold(c.account, log).state;
    if BoundAndVerified(c, s) {
      var q := EquityEvent(c, s, s.binding.value.currency, n, cashFlow);
      BudgetOfSnapshot(c.domain.value, n);
      if n.evidence.Some? {
        EvidenceExactly(c.account, log, n.evidence.value, q);
      }
      if s.equity.Some? ==> n.valuationAt > s.equity.value.valuationAt {
        WatermarksFollow(log, s, q, n.equity, cashFlow);
      }
    }
    hide Fold, OpenIn, EvidenceAccepted, EvidenceFits, SnapshotBudget, FollowsSnapshot, ExpectedPeak,
      ExpectedProtected;
  }

  // ----- reserve_account_risk -----

  ghost predicate IsAffordable(quantity: real, n: nat, r: RiskRequest) {
    quantity <= n as real * r.step && n as real * r.step * r.lossPerUnit + r.fee <= r.amount
  }

  /** Losing some whole number of steps, at least the order's quantity, and paying the fee stays within the amount. */
  ghost predicate QuantityFits(r: RiskRequest) {
    && r.fee >= 0.0 && r.lossPerUnit > 0.0 && r.step > 0.0
    && (exists n: nat :: IsAffordable(r.order.quantity, n, r))
    && (exists n: int :: IsNearSteps(r.order.quantity, n, r.step))
  }

  /** The request's snapshot is the recorded one, and its exposures are those of the snapshot. */
  predicate AgreesWithSnapshot(c: Config, r: RiskRequest, q: Equity)
    requires c.domain.Some?
  {
    && var n := r.snapshot;
    && n.complete && n.openOrdersComplete && n.accountId == c.account && n.currency == c.domain.value.currency
    && n.equity == q.equity && n.balance == q.balance && n.cash == q.cash && n.currency == q.currency
    && n.source == q.source && n.domainKey == q.domainKey && n.valuationAt == q.valuationAt
    && n.validUntil == q.validUntil && n.pending3x == q.pending3x
    && r.existing3x == q.position3x && r.pending3x == q.pending3x
  }

  /** The request cites the domain's own budget policy, and for simulated capital its floor and fraction caps. */
  predicate CitesPolicy(domain: Domain, r: RiskRequest) {
    && r.policy.preference == domain.preference && r.policy.version == domain.version
    && r.policy.source == domain.source && r.policy.perTradeFraction == r.fraction
    && r.policy.floor == r.floor && r.policy.costBuffer == r.costBuffer && r.policy.totalLimit >= 0.0
    && match domain.kind
       case OwnReal => r.policy.contractFloor == None
       case FtmoSimulated =>
         && r.policy.contractFloor.Some? && 0.0 < r.policy.contractFloor.value <= r.floor
         && r.fraction <= 0.005
  }

  /** With the amount, what is committed stays within the policy, and the floor and the cost buffer stay untouched. */
  predicate StaysWithin(r: RiskRequest, q: Equity, committed: real) {
    && committed >= 0.0 && r.amount > 0.0 && r.floor >= 0.0 && r.costBuffer >= 0.0 && 0.0 < r.fraction <= 1.0
    && r.amount <= r.fraction * q.balance && committed + r.amount <= r.policy.totalLimit
    && committed + r.amount + r.floor + r.costBuffer <= q.equity
  }

  /** An unleveraged product, or a leveraged one within the band's share of the equity and with its approval. */
  predicate LeverageFits(r: RiskRequest, q: Equity, reserved3x: real) {
    || r.factor == 1.0
    || (&& r.factor == 3.0 && (q.protectedEquity >= 50000.0 ==> r.approved)
        && q.position3x + q.pending3x + reserved3x + r.order.quantity * r.unitPrice
            <= LeverageShare(q.protectedEquity) * q.equity)
  }

  ghost predicate MayReserveRisk(c: Config, log: seq<Event>, r: RiskRequest, reserved: real, reserved3x: real) {
    && SpeaksFor(c, log) && OrderFits(c, r.order) && AllSettled(log) && SnapshotIn(log).Some?
    && var q := SnapshotIn(log).value;
    && AgreesWithSnapshot(c, r, q) && q.valuationAt <= c.observedAt <= c.decisionAt < q.validUntil
    && q.peak > 0.0 && q.protectedEquity >= 0.0 && !FallenToBrake(q.equity, q.peak, q.protectedEquity)
    && ReservedIn(log, OrderDigest(r.order)).None? && r.unitPrice > 0.0
    && LeverageFits(r, q, reserved3x) && QuantityFits(r) && CitesPolicy(c.domain.value, r)
    && StaysWithin(r, q, PositionRiskIn(log) + reserved)
  }

  /** The reservation says what was requested, against the snapshot it was requested on. */
  predicate ReservesRequested(c: Config, r: RiskRequest, q: Equity, f: RiskFacts) {
    && f.order.order == r.order && f.quantity == r.order.quantity && f.amount == r.amount && f.fee == r.fee
    && f.lossPerUnit == r.lossPerUnit && f.step == r.step && f.fraction == r.fraction && f.factor == r.factor
    && f.unitPrice == r.unitPrice && f.existing3x == r.existing3x && f.pending3x == r.pending3x
    && f.floor == r.floor && f.costBuffer == r.costBuffer && f.approved == r.approved && f.policy == r.policy
    && f.currency == q.currency && f.source == q.source && f.valuationAt == q.valuationAt
    && f.reserved3x == (if r.factor == 3.0 then r.order.quantity * r.unitPrice else 0.0)
  }

  lemma AffordableIsWithin(r: RiskRequest, n: nat)
    requires r.order.quantity > 0.0 && MaximumRiskQuantity(r.amount, r.lossPerUnit, r.fee, r.step).Some?
    requires IsAffordable(r.order.quantity, n, r)
    ensures r.order.quantity <= MaximumRiskQuantity(r.amount, r.lossPerUnit, r.fee, r.step).value
  {
    QuantityIsLargestAffordable(r.amount, r.lossPerUnit, r.fee, r.step, n);
    hide MaximumRiskQuantity;
    assert n == 0 ==> n as real * r.step == 0.0;
  }

  lemma WithinIsAffordable(r: RiskRequest) returns (n: nat)
    requires r.order.quantity > 0.0 && MaximumRiskQuantity(r.amount, r.lossPerUnit, r.fee, r.step).Some?
    requires r.order.quantity <= MaximumRiskQuantity(r.amount, r.lossPerUnit, r.fee, r.step).value
    ensures IsAffordable(r.order.quantity, n, r)
  {
    var best := MaximumRiskQuantity(r.amount, r.lossPerUnit, r.fee, r.step).value;
    QuantityIsLargestAffordable(r.amount, r.lossPerUnit, r.fee, r.step, 0);
    n :| IsWholeSteps(best, n, r.step);
    QuantityIsLargestAffordable(r.amount, r.lossPerUnit, r.fee, r.step, n);
    hide MaximumRiskQuantity;
    assert n == 0 ==> n as real * r.step == 0.0;
  }

  lemma AffordableExactly(r: RiskRequest)
    requires r.order.quantity > 0.0
    ensures
      var most := MaximumRiskQuantity(r.amount, r.lossPerUnit, r.fee, r.step);
      && r.amount > 0.0 && most.Some? && r.order.quantity <= most.value && StepAligned(r.order.quantity, r.step)
      <==> r.amount > 0.0 && QuantityFits(r)
  {
    if r.fee >= 0.0 && r.lossPerUnit > 0.0 && r.step > 0.0 && r.amount > 0.0 {
      StepAlignedExactly(r.order.quantity, r.step);
      var most := MaximumRiskQuantity(r.amount, r.lossPerUnit, r.fee, r.step);
      assert most.Some?;
      hide MaximumRiskQuantity, StepAligned, IsNearSteps, IsAffordable;
      if r.order.quantity <= most.value {
        var _ := WithinIsAffordable(r);
      }
      if n: nat :| IsAffordable(r.order.quantity, n, r) {
        AffordableIsWithin(r, n);
      }
    }
  }

  /** The budget test is the policy's fraction and the account's headroom. */
  lemma BudgetAnswers(r: RiskRequest, q: Equity, complete: bool, matches: bool, committed: real)
    requires q.balance >= 0.0
    ensures
      var budget := AvailableNewRiskBudget(complete, matches, q.balance, q.equity, r.floor, committed, r.costBuffer,
                                           r.fraction);
      && r.amount > 0.0 && budget.Some? && r.amount <= budget.value && committed + r.amount <= r.policy.totalLimit
      <==> complete && matches && StaysWithin(r, q, committed)
  {
  }

  lemma LeverageAnswers(r: RiskRequest, q: Equity, reserved3x: real)
    requires q.peak > 0.0 && q.protectedEquity >= 0.0 && r.existing3x == q.position3x && r.pending3x == q.pending3x
    ensures
      var e := EvaluateEnvelope(q.protectedEquity, Some(DrawdownFrom(q.equity, q.peak)));
      (r.factor == 1.0 || r.factor == 3.0) && !(r.factor == 3.0 && !LeverageAllowed(e, q.equity, r, reserved3x))
      <==> LeverageFits(r, q, reserved3x)
  {
    EnvelopeBrakesExactly(q.equity, q.peak, q.protectedEquity);
    hide EvaluateEnvelope, DrawdownFrom, LeverageShare;
  }

  /** The whole test on the state that was read. */
  ghost predicate RequestFits(c: Config, s: State, r: RiskRequest, reserved: real, reserved3x: real)
    requires s.equity.Some?
  {
    && var q := s.equity.value;
    && !HasUnresolved(s) && BoundAndVerified(c, s) && OrderFits(c, r.order)
    && AgreesWithSnapshot(c, r, q) && q.valuationAt <= c.observedAt <= c.decisionAt < q.validUntil
    && q.peak > 0.0 && q.protectedEquity >= 0.0 && !FallenToBrake(q.equity, q.peak, q.protectedEquity)
    && OrderDigest(r.order) !in s.reservations && r.unitPrice > 0.0
    && LeverageFits(r, q, reserved3x) && QuantityFits(r) && CitesPolicy(c.domain.value, r)
    && StaysWithin(r, q, s.positionRisk + reserved)
  }

  lemma RequestAnswers(c: Config, s: State, r: RiskRequest, reserved: real, reserved3x: real)
    requires s.equity.Some? && s.equity.value.openOrdersComplete && s.equity.value.balance >= 0.0
    requires s.equity.value.position3x >= 0.0 && s.equity.value.pending3x >= 0.0
    ensures
      var d := DecideAccountRisk(c, s, r, reserved, reserved3x);
      && (d.Some? <==> RequestFits(c, s, r, reserved, reserved3x))
      && (d.Some? ==> d.value.RiskReserved? && ReservesRequested(c, r, s.equity.value, d.value.facts))
  {
    var q := s.equity.value;
    if r.order.quantity > 0.0 {
      AffordableExactly(r);
    }
    if q.peak > 0.0 && q.protectedEquity >= 0.0 {
      EnvelopeBrakesExactly(q.equity, q.peak, q.protectedEquity);
      if r.existing3x == q.position3x && r.pending3x == q.pending3x {
        LeverageAnswers(r, q, reserved3x);
      }
    }
    var n := r.snapshot;
    if c.domain.Some? {
      BudgetAnswers(r, q, n.complete, n.currency == c.domain.value.currency, s.positionRisk + reserved);
    }
    hide HasUnresolved, QuantityFits, MaximumRiskQuantity, StepAligned, EvaluateEnvelope, FallenToBrake, LeverageFits,
      LeverageAllowed, AvailableNewRiskBudget, StaysWithin;
  }

  lemma RiskAnswersExactly(c: Config, log: seq<Event>, r: RiskRequest)
    requires Fold(c.account, log).readable
    ensures
      var s := Fold(c.account, log).state;
      var d := Decide(c, s, ReserveRisk(r));
      && (d.Some? <==> MayReserveRisk(c, log, r, ReservedRisk(s), Reserved3x(s)))
      && (d.Some? ==> d.value.RiskReserved? && ReservesRequested(c, r, SnapshotIn(log).value, d.value.facts))
  {
    var s := Fold(c.account, log).state;
    AccountAnswers(c, log);
    UnresolvedExactly(c.account, log);
    ReservationsAgree(c.account, log, OrderDigest(r.order));
    if SnapshotIn(log).Some? {
      SnapshotIsSound(c.account, log);
      RequestAnswers(c, s, r, ReservedRisk(s), Reserved3x(s));
    } else {
      assert DecideAccountRisk(c, s, r, ReservedRisk(s), Reserved3x(s)).None?;
    }
    hide Fold, OpenIn, HasUnresolved, AllSettled, DecideAccountRisk, SpeaksFor, LeverageFits, CitesPolicy,
      BoundAndVerified, QuantityFits, StaysWithin, AgreesWithSnapshot, ReservesRequested, FallenToBrake;
  }

  /** The brake that lets a reduction through lets no new risk be reserved, whatever the product. */
  lemma BrakeStopsNewRisk(c: Config, log: seq<Event>, r: RiskRequest, other: Config, o: Order, attempt: Id, fence: Id)
    requires Fold(c.account, log).readable && other.account == c.account
    requires Decide(c, Fold(c.account, log).state, ReserveRisk(r)).Some?
    ensures forall hardBrake: bool ::
              Decide(other, Fold(c.account, log).state, ReserveReduction(o, hardBrake, attempt, fence)).None?
    ensures
      && SnapshotIn(log).Some?
      && var q := SnapshotIn(log).value;
      && !FallenToBrake(q.equity, q.peak, q.protectedEquity)
  {
    RiskAnswersExactly(c, log, r);
    ReductionAnswersExactly(other, log, o, true, attempt, fence);
    ReductionAnswersExactly(other, log, o, false, attempt, fence);
    hide Decide, Fold, FallenToBrake, SpeaksFor, AllSettled, AgreesWithSnapshot, LeverageFits, QuantityFits,
      CitesPolicy, StaysWithin;
  }

  // ----- reconcile_account_risk -----

  /** The writer takes the facts that the reader takes, from a session of the bound domain. */
  lemma ReconcileAnswersExactly(c: Config, log: seq<Event>, id: Id, filled: real, fee: real, positionRisk: real,
                                source: Id)
    requires Fold(c.account, log).readable
    ensures
      var d := Decide(c, Fold(c.account, log).state, ReconcileRisk(id, filled, fee, positionRisk, source));
      && (d.Some? <==> SpeaksFor(c, log) && ReconcilesRightly(log, id, filled, fee, positionRisk, source))
      && (d.Some? ==> d.value == RiskReconciled(id, filled, fee, positionRisk, source))
  {
    var s := Fold(c.account, log).state;
    AccountAnswers(c, log);
    ReconciliationExactly(c.account, log, RiskReconciled(id, filled, fee, positionRisk, source));
    FoldIsCoherent(c.account, log);
    hide Fold, ReconcilesRightly, SpeaksFor, BoundAndVerified, OpenIn, WorkingRisk, Working3x;
    if ReconcileFactsAgree(s, id, filled, fee, positionRisk, source) {
      assert ReservationsCoherent(s) && s.attempts[id].preparation.order in s.reservations;
    }
  }

  // ----- record_circuit_breaker_open -----

  predicate IsUsable(x: Option<real>) {
    x.Some? && x.value >= 0.0
  }

  /** The account is at the brake by its own drawdown, or if that is unusable by the fall from a usable peak. */
  predicate AtBrake(b: BrakeSnapshot) {
    && IsUsable(b.equity)
    && (if IsUsable(b.drawdown) then b.drawdown.value >= BrakeAt(b.equity.value)
        else b.peak.Some? && FallenToBrake(b.equity.value, b.peak.value, b.equity.value))
  }

  /** OPEN is written once, at the brake, with the facts that can be used and without the others. */
  lemma OpenAnswersExactly(c: Config, log: seq<Event>, b: BrakeSnapshot)
    requires Fold(c.account, log).readable
    ensures
      var d := Decide(c, Fold(c.account, log).state, OpenBreaker(b));
      && (d.Some? <==> AtBrake(b) && !OpenIn(log))
      && (d.Some? ==>
            d.value == BreakerOpened(b.equity.value, if b.peak.Some? && b.peak.value > 0.0 then b.peak else None,
                                     if IsUsable(b.drawdown) then b.drawdown else None, c.owner, c.profile))
  {
    AccountAnswers(c, log);
    HardBrakeExactly(b);
    if b.equity.Some? && b.peak.Some? && b.peak.value > 0.0 {
      DrawdownReaches(b.equity.value, b.peak.value, BrakeAt(b.equity.value));
    }
    hide Fold, OpenIn, DrawdownFrom, HardBrakeTriggered;
  }

  // ----- record_observation -----

  /** Nothing final has been heard of the attempt yet. */
  predicate StillOpen(log: seq<Event>, id: Id) {
    && PreparationIn(log, id).Some?
    && (LastObservation(log, id).Some? ==>
        LastObservation(log, id).value.data.observation.certainty == KNOWN_PENDING)
  }

  /** The report parses, and goes on from what was known. */
  predicate ReportFits(log: seq<Event>, id: Id, r: Report)
    requires PreparationIn(log, id).Some?
  {
    && !r.malformed && 0.0 <= r.filled <= PreparationIn(log, id).value.data.preparation.quantity
    && NonNegative(r.price)
    && (LastObservation(log, id).Some? ==>
          && r.filled >= LastObservation(log, id).value.data.observation.filled
          && r.brokerOrder == LastObservation(log, id).value.data.observation.brokerOrder)
  }

  predicate SaysReport(o: Observation, r: Report) {
    o.status == r.status && o.brokerOrder == r.brokerOrder && o.filled == r.filled && o.price == r.price
  }

  /** What was known of the attempt's fills and broker order is still all that is known. */
  predicate KeepsKnown(log: seq<Event>, id: Id, o: Observation) {
    match LastObservation(log, id)
    case None => o.filled == 0.0 && o.brokerOrder.None? && o.price.None?
    case Some(e) =>
      && o.filled == e.data.observation.filled && o.brokerOrder == e.data.observation.brokerOrder
      && o.price == e.data.observation.price
  }

  /** The observation that a report amounts to, classified by its facts alone. */
  predicate IsHeard(log: seq<Event>, id: Id, r: Report, o: Observation)
    requires PreparationIn(log, id).Some?
  {
    var quantity := PreparationIn(log, id).value.data.preparation.quantity;
    if ReportFits(log, id, r) then
      && SaysReport(o, r)
      && o.certainty == (if IsOver(o, quantity) then TERMINAL else if IsWorking(o, quantity) then KNOWN_PENDING
                         else UNKNOWN)
    else KeepsKnown(log, id, o) && o.certainty == UNKNOWN
  }

  /** A report on an open attempt as the attempt's record meets it. */
  lemma AttemptHears(log: seq<Event>, id: Id, x: Attempt, r: Report)
    requires AttemptIsLastWord(log, id, x) && AttemptCoherent(x)
    requires x.certainty == PREPARED || x.certainty == KNOWN_PENDING
    ensures StillOpen(log, id) && IsHeard(log, id, r, ObservationFrom(x, r))
    ensures x.observation == Some(ObservationFrom(x, r)) <==>
              ReportFits(log, id, r) && LastObservation(log, id).Some?
              && SaysReport(LastObservation(log, id).value.data.observation, r)
  {
    var o := ObservationFrom(x, r);
    PendingKnowsBroker(x);
    CertaintyExactly(o, x.preparation.quantity);
    IsOverOrWorking(o, x.preparation.quantity);
    NeverWorkingUnknown(o, x.preparation.quantity);
    hide IsOver, IsWorking, LastStamp, SnapshotIn;
  }

  lemma NeverWorkingUnknown(o: Observation, quantity: real)
    ensures o.status == UNKNOWN_STATUS ==> !IsOver(o, quantity) && !IsWorking(o, quantity)
  {
  }

  /** Every report on an open attempt is recorded, except one that repeats the last word. */
  lemma ReportIsHeard(c: Config, log: seq<Event>, id: Id, r: Report, recordedAt: Option<Time>)
    requires Fold(c.account, log).readable && StillOpen(log, id)
    ensures
      var d := Decide(c, Fold(c.account, log).state, RecordObservation(id, r, recordedAt));
      && (d.None? <==>
          ReportFits(log, id, r) && LastObservation(log, id).Some?
          && SaysReport(LastObservation(log, id).value.data.observation, r))
      && (d.Some? ==>
            && d.value.Observed? && d.value.attempt == id && IsHeard(log, id, r, d.value.observation)
            && d.value.recordedAt
               == (if recordedAt.Some? && LastStamp(log, id).Some? && recordedAt.value < LastStamp(log, id).value
                   then None else recordedAt))
  {
    var s := Fold(c.account, log).state;
    AttemptAnswers(c.account, log, id);
    FoldIsCoherent(c.account, log);
    var x := s.attempts[id];
    assert AttemptCoherent(x);
    AttemptHears(log, id, x, r);
    hide Fold, StateCoherent, AttemptCoherent, ObservationFrom, IsHeard, ReportFits, SaysReport;
  }

  /** A final word is never replaced. */
  lemma FinalWordStays(c: Config, log: seq<Event>, id: Id, r: Report, recordedAt: Option<Time>)
    requires Fold(c.account, log).readable && !StillOpen(log, id)
    ensures Decide(c, Fold(c.account, log).state, RecordObservation(id, r, recordedAt)).None?
  {
    var s := Fold(c.account, log).state;
    AttemptAnswers(c.account, log, id);
    FoldIsCoherent(c.account, log);
    if id in s.attempts {
      assert AttemptCoherent(s.attempts[id]);
    }
    hide Fold, StateCoherent, ObservationFrom;
  }

  /** The report is consistent and says that the order is over or working. */
  predicate Settles(log: seq<Event>, id: Id, r: Report)
    requires PreparationIn(log, id).Some?
  {
    var quantity := PreparationIn(log, id).value.data.preparation.quantity;
    var o := Observation(r.status, r.brokerOrder, r.filled, r.price, UNKNOWN);
    ReportFits(log, id, r) && (IsOver(o, quantity) || IsWorking(o, quantity))
  }

  lemma HeardSettlesExactly(log: seq<Event>, id: Id, r: Report, o: Observation)
    requires PreparationIn(log, id).Some? && IsHeard(log, id, r, o)
    ensures o.certainty == KNOWN_PENDING || o.certainty == TERMINAL <==> Settles(log, id, r)
  {
  }

  /**
   * Recording a report settles the attempt exactly when the report is consistent and says that the order is over or
   * working; then the account takes submissions again if every other attempt is settled, and otherwise it is
   * frozen by this attempt.
   */
  lemma ReportSettlesExactly(c: Config, log: seq<Event>, id: Id, r: Report, recordedAt: Option<Time>)
    requires Fold(c.account, log).readable && StillOpen(log, id)
    requires Decide(c, Fold(c.account, log).state, RecordObservation(id, r, recordedAt)).Some?
    ensures
      var s := Fold(c.account, log).state;
      var longer := log + [Seal(s, c.account, Decide(c, s, RecordObservation(id, r, recordedAt)).value)];
      && Fold(c.account, longer).readable
      && (HasUnresolved(Fold(c.account, longer).state) <==>
          !(Settles(log, id, r) && forall b :: b != id && PreparationIn(log, b).Some? ==> SettledIn(log, b)))
      && (!Settles(log, id, r) ==>
          id in Fold(c.account, longer).state.attempts
          && Fold(c.account, longer).state.attempts[id].certainty == UNKNOWN)
  {
    var s := Fold(c.account, log).state;
    var d := Decide(c, s, RecordObservation(id, r, recordedAt)).value;
    var e := Seal(s, c.account, d);
    ReportIsHeard(c, log, id, r, recordedAt);
    FoldIsCoherent(c.account, log);
    WriterEventReplaysExactly(c, s, RecordObservation(id, r, recordedAt));
    var longer := log + [e];
    assert longer[..|log|] == log;
    assert Fold(c.account, longer).readable;
    UnresolvedExactly(c.account, longer);
    HeardSettlesExactly(log, id, r, d.observation);
    AttemptAnswers(c.account, longer, id);
    hide Fold, Decide, IsHeard, Settles, HasUnresolved, StateCoherent;
    forall b
      ensures PreparationIn(longer, b) == PreparationIn(log, b)
      ensures b != id ==> SettledIn(longer, b) == SettledIn(log, b)
    {
    }
  }
}
