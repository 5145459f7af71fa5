/** What recorded account snapshots promise for the rest of the journal. */
module SnapshotLaws {
  import opened Prelude
  import opened CapitalEnvelope
  import opened RiskBudget
  import opened Journal
  import opened JournalLaws
  import opened Writers

  // ----- Where the current snapshot comes from -----

  lemma EquityEventIsAccepted(s: State, account: Id, e: Event)
    requires e.data.EquityObserved? && Apply(s, account, e).Some?
    ensures var q := e.data.snapshot;
            && EquityFactsValid(s, account, q) && Apply(s, account, e).value.equity == Some(q)
            && (q.evidence.Some? ==> EvidenceAccepted(q.evidence.value, q, s.attempts, s.reservations))
  {
  }

  /** The current snapshot was recorded by one event of the journal, on the state that preceded it. */
  lemma {:induction false} SnapshotOrigin(account: Id, log: seq<Event>) returns (i: nat)
    requires Fold(account, log).state.equity.Some?
    ensures i < |log| && Fold(account, log[..i]).readable
    ensures
      var q := Fold(account, log).state.equity.value;
      var before := Fold(account, log[..i]).state;
      && EquityFactsValid(before, account, q)
      && (q.evidence.Some? ==> EvidenceAccepted(q.evidence.value, q, before.attempts, before.reservations))
    decreases |log|
  {
    hide Apply, EquityFactsValid, EvidenceAccepted;
    var n := |log| - 1;
    var before := Fold(account, log[..n]);
    if before.readable && Apply(before.state, account, log[n]).Some? {
      OnlyEquityEventsMoveEquity(before.state, account, log[n]);
    }
    if before.readable && Apply(before.state, account, log[n]).Some? && log[n].data.EquityObserved? {
      EquityEventIsAccepted(before.state, account, log[n]);
      i := n;
    } else {
      i := SnapshotOrigin(account, log[..n]);
      assert log[..n][..i] == log[..i];
    }
  }

  // ----- Pending order evidence -----

  lemma {:induction false} ExposureBoundsEach(orders: seq<EvidenceOrder>)
    requires forall i :: 0 <= i < |orders| ==> orders[i].pending3x >= 0.0
    ensures Exposure3x(orders) >= 0.0
    ensures forall i :: 0 <= i < |orders| ==> orders[i].pending3x <= Exposure3x(orders)
    decreases |orders|
  {
    if orders != [] {
      var n := |orders| - 1;
      ExposureBoundsEach(orders[..n]);
      forall i | 0 <= i < |orders|
        ensures orders[i].pending3x <= Exposure3x(orders)
      {
        assert i < n ==> orders[..n][i] == orders[i];
      }
    }
  }

  /** What one evidence item still says about a later state. */
  predicate EvidenceOrderHolds(o: EvidenceOrder, t: State) {
    && o.attempt in t.attempts
    && var a := t.attempts[o.attempt];
    && a.certainty != PREPARED && BrokerOrderOf(a) == Some(o.brokerOrder)
    && 0.0 <= a.preparation.quantity - a.filled <= o.remainingQuantity <= a.preparation.quantity
    && a.preparation.order in t.reservations
    && t.reservations[a.preparation.order].reconciledFilled >= a.preparation.quantity - o.remainingQuantity
  }

  lemma SoundOrderHoldsLater(o: EvidenceOrder, through: Time, s: State, t: State)
    requires EvidenceOrderSound(o, through, s.attempts, s.reservations)
    requires StateCoherent(s) && StateCoherent(t) && Evolves(s, t)
    ensures EvidenceOrderHolds(o, t)
  {
    var a := s.attempts[o.attempt];
    assert AttemptCoherent(a) && AttemptCoherent(t.attempts[o.attempt]);
    assert Advances(a, t.attempts[o.attempt]);
    assert ReservationEvolves(s, t, a.preparation.order);
  }

  /**
   * Accepted pending evidence stays sound: in every later journal each order it lists still names an attempt
   * with that broker order, what is open on it is at most what the evidence said, and its reservation is
   * reconciled at least to the fills the evidence was based on. Attempts and broker orders are listed once, and
   * no leveraged exposure, alone or in total, exceeds the snapshot's aggregate.
   */
  lemma EvidenceStaysSound(account: Id, log: seq<Event>, longer: seq<Event>)
    requires log <= longer
    requires Fold(account, log).state.equity.Some? && Fold(account, log).state.equity.value.evidence.Some?
    ensures
      var q := Fold(account, log).state.equity.value;
      var e := q.evidence.value;
      var t := Fold(account, longer).state;
      && (forall i :: 0 <= i < |e.orders| ==>
          EvidenceOrderHolds(e.orders[i], t) && 0.0 <= e.orders[i].pending3x <= q.pending3x)
      && (forall i, j :: 0 <= i < j < |e.orders| ==>
            e.orders[i].attempt != e.orders[j].attempt && e.orders[i].brokerOrder != e.orders[j].brokerOrder)
      && Exposure3x(e.orders) <= q.pending3x
      && e.account == account && e.observedThrough <= q.valuationAt
  {
    hide Fold, StateCoherent, Evolves, EvidenceOrderSound, EvidenceOrderHolds;
    var i := SnapshotOrigin(account, log);
    var s, t := Fold(account, log[..i]).state, Fold(account, longer).state;
    FoldIsCoherent(account, log[..i]);
    FoldIsCoherent(account, longer);
    FoldEvolves(account, log[..i], longer);
    var e := Fold(account, log).state.equity.value.evidence.value;
    forall k | 0 <= k < |e.orders|
      ensures EvidenceOrderHolds(e.orders[k], t) && e.orders[k].pending3x >= 0.0
    {
      SoundOrderHoldsLater(e.orders[k], e.observedThrough, s, t);
      ExposureOfSoundOrder(e.orders[k], e.observedThrough, s);
    }
    ExposureBoundsEach(e.orders);
  }

  lemma ExposureOfSoundOrder(o: EvidenceOrder, through: Time, s: State)
    requires EvidenceOrderSound(o, through, s.attempts, s.reservations)
    ensures o.pending3x >= 0.0
  {
  }

  // ----- Account-brake reductions -----

  /** The account is past its drawdown brake, judged by its own recorded watermarks. */
  predicate PastBrake(q: Equity) {
    q.peak > 0.0 && q.protectedEquity >= 0.0 && DrawdownFrom(q.equity, q.peak) >= ResolveBand(q.protectedEquity).brake
  }

  lemma BrakeIsPastBrake(q: Equity)
    ensures BrakeVerified(q) <==> PastBrake(q)
  {
  }

  /**
   * A reduction is decided only to sell what is held: recorded positions are never negative, so the order is a
   * sell of at most the observed position, no fill of it turns the position around, the account is past its
   * brake on a snapshot that is current and shows no open order, and every earlier attempt is terminal with
   * its fills covered by that snapshot.
   */
  lemma ReductionOnlySellsHeldPosition(c: Config, log: seq<Event>, o: Order, hardBrake: bool, attempt: Id, fence: Id)
    requires DecideReduction(c, Fold(c.account, log).state, o, hardBrake, attempt, fence).Some?
    ensures
      var s := Fold(c.account, log).state;
      && s.equity.Some?
      && var q := s.equity.value;
      && o.symbol in q.positions && o.side == Sell && 0.0 < o.quantity <= q.positions[o.symbol]
      && (forall fill: real :: 0.0 <= fill <= o.quantity ==>
          0.0 <= Exposure(q.positions[o.symbol], false, fill, 0.0) <= q.positions[o.symbol])
      && PastBrake(q) && q.openOrdersEmpty && q.valuationAt <= c.decisionAt < q.validUntil
      && (forall a :: a in s.attempts ==> s.attempts[a].certainty == TERMINAL)
      && (forall a :: a in s.attempts && s.attempts[a].filled > 0.0 ==>
            a in q.coveredFills && q.coveredFills[a] == s.attempts[a].filled)
  {
    hide Fold;
    var s := Fold(c.account, log).state;
    var i := SnapshotOrigin(c.account, log);
    BrakeIsPastBrake(s.equity.value);
    assert NonNegativeValues(s.equity.value.positions);
    forall a | a in s.attempts
      ensures s.attempts[a].certainty == TERMINAL
    {
      assert !Unresolved(s.attempts[a].certainty) && s.attempts[a].certainty != KNOWN_PENDING;
    }
  }

  // ----- Admission of new risk -----

  /** Quantity is within one part in a thousand million of a whole number of steps. */
  lemma StepAlignedExactly(quantity: real, step: real)
    requires step > 0.0
    ensures StepAligned(quantity, step) <==>
              exists n: int :: IsNearSteps(quantity, n, step)
  {
    var x := quantity / step;
    assert x * step == quantity;
    if StepAligned(quantity, step) {
      var n := if x - x.Floor as real <= SLACK then x.Floor else x.Floor + 1;
      NearInSteps(x, n, step);
      assert IsNearSteps(quantity, n, step);
    }
    if n: int :| IsNearSteps(quantity, n, step) {
      NearInSteps(x, n, step);
      assert n == x.Floor || n == x.Floor + 1;
    }
  }

  const SLACK := 0.000000001

  predicate IsNearSteps(quantity: real, n: int, step: real) {
    Abs(quantity - n as real * step) <= SLACK * step
  }

  lemma NearInSteps(x: real, n: int, step: real)
    requires step > 0.0
    ensures IsNearSteps(x * step, n, step) <==> Abs(x - n as real) <= SLACK
  {
    var d := x - n as real;
    assert d * step == x * step - n as real * step;
    StepsCompare(d, SLACK, step);
    StepsCompare(-SLACK, d, step);
  }
}
