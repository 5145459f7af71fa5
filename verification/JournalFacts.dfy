/**
 * What readers and writers look for, said in terms of the events of the journal: no state is reduced here. The
 * lemmas say that the reduced state gives the same answers.
 */
module JournalFacts {
  import opened Prelude
  import opened CapitalEnvelope
  import opened RiskBudget
  import opened Journal
  import opened JournalLaws
  import opened LastWord

  // ----- The capital bands -----

  /** The drawdown from peak at which an account of this size stops taking new risk. */
  function BrakeAt(equity: real): real {
    if equity > 1000000.0 then 0.05
    else if equity >= 250000.0 then 0.075
    else if equity >= 50000.0 then 0.10
    else 0.15
  }

  /** The share of the equity that leveraged products may make up. */
  function LeverageShare(equity: real): real {
    if equity > 1000000.0 then 0.0
    else if equity >= 250000.0 then 0.25
    else if equity >= 50000.0 then 0.5
    else 1.0
  }

  /** The equity has fallen to the share of its peak at which the band stops new risk. */
  predicate FallenToBrake(equity: real, peak: real, sized: real) {
    peak > 0.0 && sized >= 0.0 && equity <= (1.0 - BrakeAt(sized)) * peak
  }

  lemma DrawdownReaches(equity: real, peak: real, brake: real)
    requires peak > 0.0 && brake > 0.0
    ensures DrawdownFrom(equity, peak) >= brake <==> equity <= (1.0 - brake) * peak
  {
    var x := equity / peak;
    assert x * peak == equity;
    StepsCompare(x, 1.0 - brake, peak);
  }

  /** The envelope for any equity and any stated drawdown: what is unusable fails closed, without tripping the brake. */
  lemma EnvelopeExactly(equity: real, drawdown: Option<real>)
    ensures
      var e := EvaluateEnvelope(equity, drawdown);
      var usable := drawdown.Some? && drawdown.value >= 0.0;
      && (e.invalidEquity <==> equity < 0.0)
      && (e.invalidDrawdown <==> equity >= 0.0 && drawdown.Some? && drawdown.value < 0.0)
      && (e.brakeTripped <==> equity >= 0.0 && usable && drawdown.value >= BrakeAt(equity))
      && (e.newRiskAllowed <==> equity >= 0.0 && (drawdown.None? || (usable && drawdown.value < BrakeAt(equity))))
      && e.max3xWeight == (if equity < 0.0 then 0.0 else LeverageShare(equity))
      && (e.leverageNeedsApproval <==> equity < 0.0 || equity >= 50000.0)
  {
  }

  /** The envelope's brake is the fall of the equity below its share of the peak. */
  lemma EnvelopeBrakesExactly(equity: real, peak: real, sized: real)
    requires peak > 0.0
    ensures
      var e := EvaluateEnvelope(sized, Some(DrawdownFrom(equity, peak)));
      && (e.brakeTripped <==> FallenToBrake(equity, peak, sized))
      && (e.newRiskAllowed <==> sized >= 0.0 && equity > (1.0 - BrakeAt(sized)) * peak)
      && (sized >= 0.0 ==> e.max3xWeight == LeverageShare(sized) && (e.leverageNeedsApproval <==> sized >= 50000.0))
  {
    DrawdownReaches(equity, peak, BrakeAt(sized));
  }

  // ----- Attempts -----

  /** The broker's last word on the attempt leaves no doubt: it is working or over. */
  predicate SettledIn(log: seq<Event>, id: Id) {
    && var last := LastObservation(log, id);
    && last.Some?
    && (last.value.data.observation.certainty == KNOWN_PENDING || last.value.data.observation.certainty == TERMINAL)
  }

  ghost predicate AllSettled(log: seq<Event>) {
    forall id :: PreparationIn(log, id).Some? ==> SettledIn(log, id)
  }

  predicate OverIn(log: seq<Event>, id: Id) {
    var last := LastObservation(log, id);
    last.Some? && last.value.data.observation.certainty == TERMINAL
  }

  ghost predicate AllOver(log: seq<Event>) {
    forall id :: PreparationIn(log, id).Some? ==> OverIn(log, id)
  }

  predicate SubmitsSame(e: Event, intent: Id, k: OrderDigest) {
    e.data.Prepared? && e.data.preparation.intent == intent && e.data.preparation.order == k
  }

  /** The intent has already been prepared with this order. */
  ghost predicate SubmittedIn(log: seq<Event>, intent: Id, k: OrderDigest) {
    exists id :: PreparationIn(log, id).Some? && SubmitsSame(PreparationIn(log, id).value, intent, k)
  }

  predicate UsesRisk(e: Event, k: OrderDigest) {
    e.data.Prepared? && e.data.preparation.order == k && !e.data.preparation.purpose.Reduction?
  }

  /** A submission other than a reduction has been prepared with this order. */
  ghost predicate RiskUsedIn(log: seq<Event>, k: OrderDigest) {
    exists id :: PreparationIn(log, id).Some? && UsesRisk(PreparationIn(log, id).value, k)
  }

  /** One attempt as the journal and as the reduced state tell it. */
  lemma AttemptAnswers(account: Id, log: seq<Event>, id: Id)
    requires Fold(account, log).readable
    ensures AttemptAgrees(log, Fold(account, log).state, id)
    ensures
      var s := Fold(account, log).state;
      && (id in s.attempts <==> PreparationIn(log, id).Some?)
      && (id in s.attempts ==>
            && s.attempts[id].preparation == PreparationIn(log, id).value.data.preparation
            && (SettledIn(log, id) <==> !Unresolved(s.attempts[id].certainty))
            && (OverIn(log, id) <==> s.attempts[id].certainty == TERMINAL))
  {
    AttemptsAreLastWords(account, log, id);
    hide Fold;
  }

  lemma UnresolvedExactly(account: Id, log: seq<Event>)
    requires Fold(account, log).readable
    ensures HasUnresolved(Fold(account, log).state) <==> !AllSettled(log)
  {
    hide Fold, SettledIn, OverIn, Unresolved, AttemptAgrees;
    var s := Fold(account, log).state;
    forall id
      ensures id in s.attempts <==> PreparationIn(log, id).Some?
      ensures id in s.attempts ==> (SettledIn(log, id) <==> !Unresolved(s.attempts[id].certainty))
    {
      AttemptAnswers(account, log, id);
    }
    if !AllSettled(log) {
      var id :| PreparationIn(log, id).Some? && !SettledIn(log, id);
      assert id in s.attempts && Unresolved(s.attempts[id].certainty);
    }
  }

  lemma NotOverExactly(account: Id, log: seq<Event>)
    requires Fold(account, log).readable
    ensures
      var s := Fold(account, log).state;
      AllOver(log) <==> forall a :: a in s.attempts ==> s.attempts[a].certainty == TERMINAL
  {
    hide Fold, SettledIn, OverIn, Unresolved, AttemptAgrees;
    var s := Fold(account, log).state;
    forall id
      ensures id in s.attempts <==> PreparationIn(log, id).Some?
      ensures id in s.attempts ==> (OverIn(log, id) <==> s.attempts[id].certainty == TERMINAL)
    {
      AttemptAnswers(account, log, id);
    }
    if !AllOver(log) {
      var id :| PreparationIn(log, id).Some? && !OverIn(log, id);
      assert id in s.attempts && s.attempts[id].certainty != TERMINAL;
    }
  }

  lemma SubmittedExactly(account: Id, log: seq<Event>, intent: Id, k: OrderDigest)
    requires Fold(account, log).readable
    ensures SameIntentAndOrder(Fold(account, log).state, intent, k) <==> SubmittedIn(log, intent, k)
    ensures ReservationUsed(Fold(account, log).state, k) <==> RiskUsedIn(log, k)
  {
    hide Fold, SettledIn, OverIn, Unresolved, AttemptAgrees;
    var s := Fold(account, log).state;
    forall id
      ensures id in s.attempts <==> PreparationIn(log, id).Some?
      ensures id in s.attempts ==> s.attempts[id].preparation == PreparationIn(log, id).value.data.preparation
    {
      AttemptAnswers(account, log, id);
    }
    if SubmittedIn(log, intent, k) {
      var id :| PreparationIn(log, id).Some? && SubmitsSame(PreparationIn(log, id).value, intent, k);
      assert id in s.attempts;
    }
    if RiskUsedIn(log, k) {
      var id :| PreparationIn(log, id).Some? && UsesRisk(PreparationIn(log, id).value, k);
      assert id in s.attempts;
    }
  }

  // ----- Reservations -----

  /** Up to where the order's reservation has been reconciled. */
  function ReconciledFillIn(log: seq<Event>, k: OrderDigest): real {
    match LastReconciliation(log, k)
    case None => 0.0
    case Some(e) => e.data.filled
  }

  function ReconciledFeeIn(log: seq<Event>, k: OrderDigest): real {
    match LastReconciliation(log, k)
    case None => 0.0
    case Some(e) => e.data.fee
  }

  lemma ReservationsAgree(account: Id, log: seq<Event>, k: OrderDigest)
    requires Fold(account, log).readable
    ensures
      var s := Fold(account, log).state;
      && (k in s.reservations <==> ReservedIn(log, k).Some?)
      && (k in s.reservations ==>
            && s.reservations[k].facts == ReservedIn(log, k).value && s.reservations[k].facts.order == k
            && s.reservations[k].facts.quantity > 0.0
            && s.reservations[k].reconciledFilled == ReconciledFillIn(log, k)
            && s.reservations[k].actualFee == ReconciledFeeIn(log, k))
  {
    ReservationsAreLastWords(account, log, k);
    FoldIsCoherent(account, log);
  }

  // ----- Pending order evidence -----

  /** The item is what the journal last heard of a working order, whose reservation is reconciled that far. */
  predicate EvidenceIsLastWord(log: seq<Event>, o: EvidenceOrder, through: Time) {
    && var p, last := PreparationIn(log, o.attempt), LastObservation(log, o.attempt);
    && p.Some? && last.Some?
    && var seen := last.value.data.observation;
    && seen.certainty == KNOWN_PENDING && seen.brokerOrder == Some(o.brokerOrder)
    && last.value.digest == o.journalObservation
    && last.value.data.recordedAt.Some? && last.value.data.recordedAt.value <= through
    && ReservedIn(log, p.value.data.preparation.order).Some?
    && ReconciledFillIn(log, p.value.data.preparation.order) == seen.filled
    && o.remainingQuantity == p.value.data.preparation.quantity - seen.filled
    && o.remainingFee >= 0.0 && o.pending3x >= 0.0
  }

  lemma EvidenceOrderExactly(account: Id, log: seq<Event>, o: EvidenceOrder, through: Time)
    requires Fold(account, log).readable
    ensures
      var s := Fold(account, log).state;
      EvidenceOrderSound(o, through, s.attempts, s.reservations) <==> EvidenceIsLastWord(log, o, through)
  {
    AttemptsAreLastWords(account, log, o.attempt);
    var s := Fold(account, log).state;
    if o.attempt in s.attempts {
      FoldIsCoherent(account, log);
      assert AttemptCoherent(s.attempts[o.attempt]);
      ReservationsAgree(account, log, s.attempts[o.attempt].preparation.order);
    }
    hide Fold;
  }

  /** The evidence speaks of the snapshot, its items are last words on different orders, and exposures fit in. */
  predicate EvidenceFits(log: seq<Event>, e: Evidence, domainKey: Id, account: Id, currency: Id, source: Id,
                         valuationAt: Time, pending3x: real) {
    && e.domainKey == domainKey && e.account == account && e.currency == currency
    && e.source == source && e.valuationAt == valuationAt >= e.observedThrough
    && (forall i :: 0 <= i < |e.orders| ==> EvidenceIsLastWord(log, e.orders[i], e.observedThrough))
    && (forall i, j :: 0 <= i < j < |e.orders| ==>
          e.orders[i].attempt != e.orders[j].attempt && e.orders[i].brokerOrder != e.orders[j].brokerOrder)
    && pending3x >= 0.0 && Exposure3x(e.orders) <= pending3x
  }

  lemma EvidenceExactly(account: Id, log: seq<Event>, e: Evidence, q: Equity)
    requires Fold(account, log).readable
    ensures
      var s := Fold(account, log).state;
      EvidenceAccepted(e, q, s.attempts, s.reservations) <==>
        EvidenceFits(log, e, q.domainKey, q.account, q.currency, q.source, q.valuationAt, q.pending3x)
  {
    hide Fold, EvidenceOrderSound, EvidenceIsLastWord;
    var s := Fold(account, log).state;
    forall i | 0 <= i < |e.orders|
      ensures EvidenceOrderSound(e.orders[i], e.observedThrough, s.attempts, s.reservations)
          <==> EvidenceIsLastWord(log, e.orders[i], e.observedThrough)
    {
      EvidenceOrderExactly(account, log, e.orders[i], e.observedThrough);
    }
  }

  // ----- What the broker's facts amount to -----

  const DEAD := {RejectedUpper, RejectedLower, Cancelled, ApiCancelled}
  const ACKNOWLEDGED := {PendingSubmit, ApiPending, ApiPendingSubmit, Submitted, PreSubmitted}
  const PARTIAL := {Partial, PartiallyFilled}

  /** Nothing was filled, or no more than was ordered, at a price. */
  predicate FillsMakeSense(filled: real, price: Option<real>, quantity: real) {
    filled <= quantity && (filled <= 0.0 || (price.Some? && price.value > 0.0))
  }

  /** The order is over: dead, or completely filled under a known broker order. */
  predicate IsOver(o: Observation, quantity: real) {
    && FillsMakeSense(o.filled, o.price, quantity)
    && (o.status in DEAD || (o.brokerOrder.Some? && o.status == Filled && o.filled == quantity))
  }

  /** The order is working under a known broker order. */
  predicate IsWorking(o: Observation, quantity: real) {
    && FillsMakeSense(o.filled, o.price, quantity) && o.brokerOrder.Some?
    && (o.status in ACKNOWLEDGED || (o.status in PARTIAL && 0.0 < o.filled < quantity))
  }

  lemma CertaintyExactly(o: Observation, quantity: real)
    ensures
      CertaintyOf(o.status, o.brokerOrder, o.filled, o.price, quantity)
      == if IsOver(o, quantity) then TERMINAL else if IsWorking(o, quantity) then KNOWN_PENDING else UNKNOWN
  {
  }
}
