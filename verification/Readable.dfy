/** Which journals can be read: a condition on every event in terms of the events before it. */
module Readable {
  import opened Prelude
  import opened CapitalEnvelope
  import opened Journal
  import opened JournalLaws
  import opened LastWord
  import opened JournalFacts

  // ----- What each kind of event must say, given the journal before it -----

  predicate NonNegative(x: Option<real>) {
    x.Some? ==> x.value >= 0.0
  }

  ghost predicate AllNonNegative(m: map<Id, real>) {
    forall k :: k in m ==> m[k] >= 0.0
  }

  predicate IsLarger(m: real, a: real, b: real) {
    m >= a && m >= b && (m == a || m == b)
  }

  /** The first OPEN, with a drawdown that reaches the brake: its own, or the one its peak shows. */
  predicate OpensRightly(log: seq<Event>, equity: real, peak: Option<real>, drawdown: Option<real>) {
    && !OpenIn(log) && equity >= 0.0 && NonNegative(peak) && NonNegative(drawdown)
    && (if drawdown.Some? then drawdown.value >= BrakeAt(equity)
        else peak.Some? && FallenToBrake(equity, peak.value, equity))
  }

  /** The watermarks follow from the snapshot before, which is strictly older. */
  predicate FollowsSnapshot(log: seq<Event>, q: Equity) {
    match SnapshotIn(log)
    case None => q.peak == q.equity && q.protectedEquity == q.equity
    case Some(p) =>
      && q.valuationAt > p.valuationAt
      && IsLarger(q.peak, q.equity, p.peak + q.cashFlow) && IsLarger(q.protectedEquity, q.equity, p.protectedEquity)
  }

  ghost predicate ObservesRightly(account: Id, log: seq<Event>, q: Equity) {
    && var b := BindingIn(log);
    && b.Some? && q.domainKey == b.value.domainKey && q.currency == b.value.currency && q.account == account
    && q.openOrdersComplete && q.valuationAt < q.validUntil
    && q.equity >= 0.0 && q.balance >= 0.0 && q.cash >= 0.0 && q.cashFlow >= 0.0
    && q.positionRisk >= 0.0 && q.position3x >= 0.0 && q.pending3x >= 0.0
    && AllNonNegative(q.positions) && AllNonNegative(q.coveredFills) && AllNonNegative(q.coveredFees)
    && FollowsSnapshot(log, q)
    && (q.evidence.Some? ==>
          EvidenceFits(log, q.evidence.value, q.domainKey, q.account, q.currency, q.source, q.valuationAt, q.pending3x))
  }

  /** Risk is reserved once for an order, for a positive quantity and an amount that contains the fee. */
  predicate ReservesRightly(log: seq<Event>, f: RiskFacts) {
    && ReservedIn(log, f.order).None?
    && var b := BindingIn(log);
    && b.Some? && f.currency == b.value.currency
    && f.amount > 0.0 && 0.0 <= f.fee <= f.amount && f.quantity > 0.0
    && f.reserved3x >= 0.0 && f.lossPerUnit >= 0.0 && f.step >= 0.0 && f.fraction >= 0.0 && f.factor >= 0.0
    && f.unitPrice >= 0.0 && f.existing3x >= 0.0 && f.pending3x >= 0.0 && f.floor >= 0.0 && f.costBuffer >= 0.0
  }

  /** The current snapshot, newer than the reservation, covers what the broker last said of a settled attempt. */
  predicate ReconcilesRightly(log: seq<Event>, id: Id, filled: real, fee: real, positionRisk: real, source: Id) {
    && var p, last, q := PreparationIn(log, id), LastObservation(log, id), SnapshotIn(log);
    && p.Some? && SettledIn(log, id) && q.Some? && last.value.data.observation.filled == filled
    && var k := p.value.data.preparation.order;
    && ReservedIn(log, k).Some?
    && q.value.source == source && q.value.positionRisk == positionRisk && fee >= 0.0
    && id in q.value.coveredFills && q.value.coveredFills[id] == filled
    && id in q.value.coveredFees && q.value.coveredFees[id] == fee
    && q.value.source != ReservedIn(log, k).value.source
    && q.value.valuationAt > ReservedIn(log, k).value.valuationAt
    && filled >= ReconciledFillIn(log, k) && fee >= ReconciledFeeIn(log, k)
  }

  /** A fresh attempt on a settled account, not a repetition, with unused reserved risk if the account is bound. */
  ghost predicate PreparesRightly(log: seq<Event>, p: Preparation) {
    && (p.purpose.NewRisk? ==> !OpenIn(log))
    && p.quantity > 0.0 && AllSettled(log)
    && PreparationIn(log, p.attempt).None? && !SubmittedIn(log, p.intent, p.order)
    && (BindingIn(log).Some? && !p.purpose.Reduction? ==>
          ReservedIn(log, p.order).Some? && !RiskUsedIn(log, p.order))
  }

  /** What was known before this observation: how much was filled, and nothing final. */
  predicate ExtendsLast(log: seq<Event>, id: Id, o: Observation) {
    match LastObservation(log, id)
    case None => o.filled >= 0.0
    case Some(e) =>
      && e.data.observation.certainty == KNOWN_PENDING
      && o.filled >= e.data.observation.filled && o.brokerOrder == e.data.observation.brokerOrder
  }

  /** The classification is the one the facts call for, and they go on from what was known. */
  predicate HearsRightly(log: seq<Event>, id: Id, o: Observation, recordedAt: Option<Time>) {
    && var p := PreparationIn(log, id);
    && p.Some?
    && var quantity := p.value.data.preparation.quantity;
    && o.filled <= quantity && NonNegative(o.price) && ExtendsLast(log, id, o)
    && (o.certainty == TERMINAL <==> IsOver(o, quantity)) && (o.certainty == KNOWN_PENDING <==> IsWorking(o, quantity))
    && o.certainty != PREPARED
    && (recordedAt.Some? && LastStamp(log, id).Some? ==> recordedAt.value >= LastStamp(log, id).value)
  }

  /** The data make a sound event behind this journal. */
  ghost predicate Acceptable(account: Id, log: seq<Event>, d: Data) {
    match d
    case BreakerOpened(equity, peak, drawdown, _, _) => OpensRightly(log, equity, peak, drawdown)
    case DomainBound(_) => BindingIn(log).None?
    case EquityObserved(q) => ObservesRightly(account, log, q)
    case RiskReserved(f) => ReservesRightly(log, f)
    case RiskReconciled(id, filled, fee, risk, source) => ReconcilesRightly(log, id, filled, fee, risk, source)
    case Prepared(p) => PreparesRightly(log, p)
    case Observed(id, o, recordedAt) => HearsRightly(log, id, o, recordedAt)
  }

  // ----- The reducer accepts exactly these -----

  lemma BreakerExactly(account: Id, log: seq<Event>, d: Data)
    requires Fold(account, log).readable && d.BreakerOpened?
    ensures ApplyBreaker(Fold(account, log).state, d).Some? <==>
              OpensRightly(log, d.equityUsd, d.peakUsd, d.drawdown)
  {
    AccountIsItsLastWord(account, log);
    hide Fold;
    if d.peakUsd.Some? && d.peakUsd.value > 0.0 {
      EnvelopeBrakesExactly(d.equityUsd, d.peakUsd.value, d.equityUsd);
    }
    hide DrawdownFrom;
  }

  lemma EquityExactly(account: Id, log: seq<Event>, q: Equity)
    requires Fold(account, log).readable
    ensures ApplyEquity(Fold(account, log).state, account, q).Some? <==> ObservesRightly(account, log, q)
  {
    AccountIsItsLastWord(account, log);
    FoldIsCoherent(account, log);
    if q.evidence.Some? {
      EvidenceExactly(account, log, q.evidence.value, q);
    }
    hide Fold, EvidenceAccepted, EvidenceFits, OpenIn;
  }

  lemma ReservationExactly(account: Id, log: seq<Event>, f: RiskFacts)
    requires Fold(account, log).readable
    ensures ApplyReservation(Fold(account, log).state, f).Some? <==> ReservesRightly(log, f)
  {
    AccountIsItsLastWord(account, log);
    ReservationsAgree(account, log, f.order);
    hide Fold, OpenIn;
  }

  lemma ReconciliationExactly(account: Id, log: seq<Event>, d: Data)
    requires Fold(account, log).readable && d.RiskReconciled?
    ensures ApplyReconcile(Fold(account, log).state, d).Some? <==>
              ReconcilesRightly(log, d.attempt, d.filled, d.fee, d.positionRisk, d.source)
  {
    var s := Fold(account, log).state;
    AccountIsItsLastWord(account, log);
    AttemptAnswers(account, log, d.attempt);
    FoldIsCoherent(account, log);
    if d.attempt in s.attempts {
      assert AttemptCoherent(s.attempts[d.attempt]);
      ReservationsAgree(account, log, s.attempts[d.attempt].preparation.order);
    }
    hide Fold, OpenIn, WorkingRisk, Working3x, StateCoherent;
  }

  lemma PreparationExactly(account: Id, log: seq<Event>, p: Preparation)
    requires Fold(account, log).readable
    ensures PreparationAllowed(Fold(account, log).state, p) <==> PreparesRightly(log, p)
  {
    AccountIsItsLastWord(account, log);
    UnresolvedExactly(account, log);
    SubmittedExactly(account, log, p.intent, p.order);
    AttemptAnswers(account, log, p.attempt);
    ReservationsAgree(account, log, p.order);
    hide Fold, OpenIn, HasUnresolved, AllSettled, SameIntentAndOrder, SubmittedIn, ReservationUsed, RiskUsedIn;
  }

  lemma PendingKnowsBroker(a: Attempt)
    requires AttemptCoherent(a)
    ensures a.certainty == KNOWN_PENDING ==> BrokerOrderOf(a).Some?
  {
  }

  /** The attempt allows the observation exactly when it goes on from what the journal last heard. */
  lemma AllowedExactly(log: seq<Event>, id: Id, x: Attempt, o: Observation, recordedAt: Option<Time>)
    requires AttemptIsLastWord(log, id, x) && AttemptCoherent(x)
    ensures ObservationAllowed(x, o, recordedAt) <==> HearsRightly(log, id, o, recordedAt)
  {
    CertaintyExactly(o, x.preparation.quantity);
    PendingKnowsBroker(x);
    IsOverOrWorking(o, x.preparation.quantity);
    hide CertaintyOf, IsOver, IsWorking, SnapshotIn, LastStamp;
  }

  lemma IsOverOrWorking(o: Observation, quantity: real)
    ensures !(IsOver(o, quantity) && IsWorking(o, quantity))
  {
  }

  lemma ObservationExactly(account: Id, log: seq<Event>, d: Data)
    requires Fold(account, log).readable && d.Observed?
    ensures
      var s := Fold(account, log).state;
      d.attempt in s.attempts && ObservationAllowed(s.attempts[d.attempt], d.observation, d.recordedAt)
      <==> HearsRightly(log, d.attempt, d.observation, d.recordedAt)
  {
    var s := Fold(account, log).state;
    AttemptAnswers(account, log, d.attempt);
    FoldIsCoherent(account, log);
    if d.attempt in s.attempts {
      assert AttemptCoherent(s.attempts[d.attempt]);
      AllowedExactly(log, d.attempt, s.attempts[d.attempt], d.observation, d.recordedAt);
    }
    hide Fold, StateCoherent, AttemptCoherent, ObservationAllowed, IsOver, IsWorking;
  }

  lemma DataExactly(account: Id, log: seq<Event>, d: Data, digest: EventDigest)
    requires Fold(account, log).readable
    ensures ApplyData(Fold(account, log).state, account, d, digest).Some? <==> Acceptable(account, log, d)
  {
    hide Fold, OpensRightly, ObservesRightly, ReservesRightly, ReconcilesRightly, PreparesRightly, HearsRightly,
      ApplyBreaker, ApplyEquity, ApplyReservation, ApplyReconcile, PreparationAllowed, ObservationAllowed;
    match d
    case BreakerOpened(_, _, _, _, _) => BreakerExactly(account, log, d);
    case DomainBound(_) => AccountIsItsLastWord(account, log);
    case EquityObserved(q) => EquityExactly(account, log, q);
    case RiskReserved(f) => ReservationExactly(account, log, f);
    case RiskReconciled(_, _, _, _, _) => ReconciliationExactly(account, log, d);
    case Prepared(p) => PreparationExactly(account, log, p);
    case Observed(_, _, _) => ObservationExactly(account, log, d);
  }

  ghost predicate AcceptableAt(account: Id, log: seq<Event>, i: nat)
    requires i < |log|
  {
    Linked(account, log, i) && Acceptable(account, log[..i], log[i].data)
  }

  lemma EventExactly(account: Id, log: seq<Event>, e: Event)
    requires Fold(account, log).readable
    ensures Apply(Fold(account, log).state, account, e).Some? <==> AcceptableAt(account, log + [e], |log|)
  {
    var longer := log + [e];
    assert longer[..|log|] == log && longer[|log|] == e;
    AcceptedJournalIsChained(account, log);
    DataExactly(account, log, e.data, e.digest);
    hide Fold, Acceptable, ApplyData;
    assert log != [] ==> longer[|log| - 1] == log[|log| - 1];
  }

  /**
   * A journal can be read exactly when every event is linked to the one before it and makes a sound event behind
   * the journal it was created on, all of it said of the events themselves.
   */
  lemma {:induction false} ReadableExactly(account: Id, log: seq<Event>)
    ensures Fold(account, log).readable <==> forall i :: 0 <= i < |log| ==> AcceptableAt(account, log, i)
    decreases |log|
  {
    hide Apply, AcceptableAt;
    if log != [] {
      var n := |log| - 1;
      var shorter := log[..n];
      assert shorter + [log[n]] == log;
      ReadableExactly(account, shorter);
      forall i | 0 <= i < n
        ensures AcceptableAt(account, shorter, i) <==> AcceptableAt(account, log, i)
      {
        SameBehindPrefix(account, shorter, log, i);
      }
      if Fold(account, shorter).readable {
        EventExactly(account, shorter, log[n]);
      }
    }
  }

  lemma SameBehindPrefix(account: Id, log: seq<Event>, longer: seq<Event>, i: nat)
    requires i < |log| && log <= longer
    ensures AcceptableAt(account, log, i) <==> AcceptableAt(account, longer, i)
  {
    hide Acceptable;
    assert log[..i] == longer[..i] && log[i] == longer[i];
  }
}
