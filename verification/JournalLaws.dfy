/** What every accepted journal satisfies, event by event and over whole histories. */
module JournalLaws {
  import opened Prelude
  import opened Journal

  // ----- Invariant of every reachable state -----

  /** One attempt's record is coherent with the classification of its last observation. */
  ghost predicate AttemptCoherent(a: Attempt) {
    && 0.0 <= a.filled <= a.preparation.quantity && a.preparation.quantity > 0.0
    && (a.observation.None? <==> a.certainty == PREPARED)
    && (a.observation.None? ==> a.filled == 0.0)
    && (a.observation.Some? ==>
          var o := a.observation.value;
          && o.certainty == a.certainty && o.filled == a.filled && NonNegativeOption(o.price)
          && a.certainty == CertaintyOf(o.status, o.brokerOrder, o.filled, o.price, a.preparation.quantity))
  }

  ghost predicate AttemptsCoherent(s: State) {
    && (forall a {:trigger s.attempts[a]} :: a in s.attempts ==>
          && AttemptCoherent(s.attempts[a]) && s.attempts[a].preparation.attempt == a
          && 1 <= s.attempts[a].generation <= s.generation)
    && (forall a, b {:trigger s.attempts[a], s.attempts[b]} :: a in s.attempts && b in s.attempts && a != b ==>
          Compatible(s.attempts[a], s.attempts[b]))
  }

  /** Two different attempts are not both in flight, not the same submission and not the same event. */
  ghost predicate Compatible(x: Attempt, y: Attempt) {
    && !(x.certainty == PREPARED && y.certainty == PREPARED)
    && !(x.preparation.intent == y.preparation.intent && x.preparation.order == y.preparation.order)
    && x.generation != y.generation
  }

  ghost predicate ReservationsCoherent(s: State) {
    forall k {:trigger s.reservations[k]} :: k in s.reservations ==>
      var f := s.reservations[k].facts;
      && f.order == k && f.quantity > 0.0 && f.amount > 0.0 && 0.0 <= f.fee <= f.amount && f.reserved3x >= 0.0
      && s.reservations[k].reconciledFilled >= 0.0 && s.reservations[k].actualFee >= 0.0
  }

  ghost predicate EquityCoherent(s: State) {
    && (s.equity.Some? ==>
          && s.positionRisk == s.equity.value.positionRisk >= 0.0
          && 0.0 <= s.equity.value.equity <= s.equity.value.protectedEquity <= s.equity.value.peak)
    && (s.equity.None? ==> s.positionRisk == 0.0)
    && (s.equity.Some? || s.reservations != map[] ==> s.binding.Some?)
  }

  ghost predicate StateCoherent(s: State) {
    AttemptsCoherent(s) && ReservationsCoherent(s) && EquityCoherent(s)
  }

  // ----- How a state may evolve; a reflexive and transitive relation -----

  /** Stages may be skipped but never revisited; UNKNOWN and TERMINAL are absorbing. */
  predicate StageFollows(before: Certainty, after: Certainty) {
    match before
    case PREPARED => true
    case KNOWN_PENDING => after != PREPARED
    case TERMINAL => after == TERMINAL
    case UNKNOWN => after == UNKNOWN
  }

  predicate Advances(before: Attempt, after: Attempt) {
    && after.preparation == before.preparation && after.generation == before.generation
    && after.digest == before.digest && after.preparedSnapshot == before.preparedSnapshot
    && StageFollows(before.certainty, after.certainty)
    && before.filled <= after.filled
    && (BrokerOrderOf(before).Some? ==> BrokerOrderOf(after) == BrokerOrderOf(before))
    && (before.certainty == TERMINAL || before.certainty == UNKNOWN ==> after == before)
    && (before.lastRecordedAt.Some? ==>
        after.lastRecordedAt.Some? && before.lastRecordedAt.value <= after.lastRecordedAt.value)
  }

  ghost predicate HasUnknown(s: State) {
    exists a :: a in s.attempts && s.attempts[a].certainty == UNKNOWN
  }

  /** An attempt that may touch the reservation of its order in a state later than `s`. */
  ghost predicate MayTouch(s: State, t: State, a: Id, order: OrderDigest) {
    && a in t.attempts && t.attempts[a].preparation.order == order
    && !(a in s.attempts && s.attempts[a].certainty == UNKNOWN)
  }

  ghost predicate ReservationEvolves(s: State, t: State, k: OrderDigest)
    requires k in s.reservations
  {
    && k in t.reservations
    && t.reservations[k].facts == s.reservations[k].facts
    && t.reservations[k].reconciledFilled >= s.reservations[k].reconciledFilled
    && t.reservations[k].actualFee >= s.reservations[k].actualFee
    && (t.reservations[k] == s.reservations[k] || exists a :: MayTouch(s, t, a, k))
  }

  ghost predicate EquityEvolves(before: Option<Equity>, after: Option<Equity>) {
    before.Some? ==>
      && after.Some?
      && (after == before || after.value.valuationAt > before.value.valuationAt)
      && after.value.protectedEquity >= before.value.protectedEquity
      && after.value.peak >= before.value.peak
  }

  ghost predicate Evolves(s: State, t: State) {
    && s.generation <= t.generation
    && (forall a {:trigger t.attempts[a]} {:trigger s.attempts[a]} :: a in s.attempts ==>
        a in t.attempts && Advances(s.attempts[a], t.attempts[a]))
    && (forall a {:trigger t.attempts[a]} :: a in t.attempts && a !in s.attempts ==>
        t.attempts[a].generation > s.generation)
    && (HasUnknown(s) ==> t.attempts.Keys == s.attempts.Keys)
    && (s.breakerOpen ==> t.breakerOpen)
    && (s.breakerOpen ==> forall a {:trigger t.attempts[a]} :: a in t.attempts && a !in s.attempts ==>
        !t.attempts[a].preparation.purpose.NewRisk?)
    && (s.binding.Some? ==> t.binding == s.binding)
    && (forall k :: k in s.reservations ==> ReservationEvolves(s, t, k))
    && EquityEvolves(s.equity, t.equity)
  }

  lemma EvolvesReflexive(s: State)
    ensures Evolves(s, s)
  {
  }

  lemma EvolvesTransitive(s: State, t: State, u: State)
    requires Evolves(s, t) && Evolves(t, u)
    ensures Evolves(s, u)
  {
    AttemptsEvolveOn(s, t, u);
    EquityEvolvesOn(s.equity, t.equity, u.equity);
    forall k | k in s.reservations
      ensures ReservationEvolves(s, u, k)
    {
      ReservationEvolvesOn(s, t, u, k);
    }
    hide ReservationEvolves, EquityEvolves, Advances, HasUnknown;
  }

  lemma EquityEvolvesOn(one: Option<Equity>, two: Option<Equity>, three: Option<Equity>)
    requires EquityEvolves(one, two) && EquityEvolves(two, three)
    ensures EquityEvolves(one, three)
  {
  }

  lemma AdvancesOn(x: Attempt, y: Attempt, z: Attempt)
    requires Advances(x, y) && Advances(y, z)
    ensures Advances(x, z)
  {
  }

  lemma AttemptsEvolveOn(s: State, t: State, u: State)
    requires Evolves(s, t) && Evolves(t, u)
    ensures forall a {:trigger u.attempts[a]} {:trigger s.attempts[a]} :: a in s.attempts ==>
              a in u.attempts && Advances(s.attempts[a], u.attempts[a])
    ensures HasUnknown(s) ==> u.attempts.Keys == s.attempts.Keys
  {
    hide ReservationEvolves, EquityEvolves;
    forall a | a in s.attempts
      ensures a in u.attempts && Advances(s.attempts[a], u.attempts[a])
    {
      AdvancesOn(s.attempts[a], t.attempts[a], u.attempts[a]);
    }
    if HasUnknown(s) {
      var a :| a in s.attempts && s.attempts[a].certainty == UNKNOWN;
      assert Advances(s.attempts[a], t.attempts[a]);
    }
  }

  lemma ReservationEvolvesOn(s: State, t: State, u: State, k: OrderDigest)
    requires Evolves(s, t) && Evolves(t, u) && k in s.reservations
    ensures ReservationEvolves(s, u, k)
  {
    assert ReservationEvolves(s, t, k) && ReservationEvolves(t, u, k);
    if u.reservations[k] != s.reservations[k] {
      if t.reservations[k] != s.reservations[k] {
        var a :| MayTouch(s, t, a, k);
        assert Advances(t.attempts[a], u.attempts[a]);
        assert MayTouch(s, u, a, k);
      } else {
        var a :| MayTouch(t, u, a, k);
        assert a in s.attempts ==> Advances(s.attempts[a], t.attempts[a]);
        assert MayTouch(s, u, a, k);
      }
    }
  }

  // ----- One accepted event -----

  lemma PreparedStaysCoherent(s: State, p: Preparation, digest: EventDigest, g: nat, head: EventDigest)
    requires StateCoherent(s) && ApplyPrepared(s, p, digest).Some? && g == s.generation + 1
    ensures StateCoherent(ApplyPrepared(s, p, digest).value.(generation := g, head := head))
  {
    var t := ApplyPrepared(s, p, digest).value.(generation := g, head := head);
    var added := t.attempts[p.attempt];
    forall a | a in s.attempts
      ensures a != p.attempt && t.attempts[a] == s.attempts[a] && Compatible(s.attempts[a], added)
    {
      assert !Unresolved(s.attempts[a].certainty);
    }
    assert AttemptsCoherent(t);
  }

  lemma PreparedEvolves(s: State, p: Preparation, digest: EventDigest, g: nat, head: EventDigest)
    requires StateCoherent(s) && ApplyPrepared(s, p, digest).Some? && g == s.generation + 1
    ensures Evolves(s, ApplyPrepared(s, p, digest).value.(generation := g, head := head))
  {
    var t := ApplyPrepared(s, p, digest).value.(generation := g, head := head);
    forall a | a in s.attempts
      ensures t.attempts[a] == s.attempts[a] && s.attempts[a].certainty != UNKNOWN
    {
      assert !Unresolved(s.attempts[a].certainty);
    }
    assert t.reservations == s.reservations && t.equity == s.equity;
  }

  /** One attempt before and after an admissible observation. */
  lemma ObservedAttempt(a: Attempt, o: Observation, recordedAt: Option<Time>, digest: EventDigest)
    requires AttemptCoherent(a) && ObservationAllowed(a, o, recordedAt)
    ensures
      var b := AfterObservation(a, o, recordedAt, digest);
      AttemptCoherent(b) && Advances(a, b) && b.certainty != PREPARED && a.certainty != UNKNOWN
  {
  }

  lemma ObservedStaysCoherent(s: State, d: Data, digest: EventDigest, g: nat, head: EventDigest)
    requires d.Observed? && StateCoherent(s) && ApplyObserved(s, d, digest).Some? && g == s.generation + 1
    ensures StateCoherent(ApplyObserved(s, d, digest).value.(generation := g, head := head))
  {
    var t := ApplyObserved(s, d, digest).value.(generation := g, head := head);
    ObservedAttempt(s.attempts[d.attempt], d.observation, d.recordedAt, digest);
    hide ObservationAllowed, AttemptCoherent;
    var b := t.attempts[d.attempt];
    forall a | a in s.attempts && a != d.attempt
      ensures t.attempts[a] == s.attempts[a] && Compatible(s.attempts[a], b)
    {
      assert Compatible(s.attempts[a], s.attempts[d.attempt]);
    }
    assert AttemptsCoherent(t);
  }

  lemma ObservedEvolves(s: State, d: Data, digest: EventDigest, g: nat, head: EventDigest)
    requires d.Observed? && StateCoherent(s) && ApplyObserved(s, d, digest).Some? && g == s.generation + 1
    ensures Evolves(s, ApplyObserved(s, d, digest).value.(generation := g, head := head))
  {
    var t := ApplyObserved(s, d, digest).value.(generation := g, head := head);
    assert AttemptCoherent(s.attempts[d.attempt]);
    ObservedAttempt(s.attempts[d.attempt], d.observation, d.recordedAt, digest);
    hide ObservationAllowed, AttemptCoherent, AfterObservation, StateCoherent;
    forall a | a in s.attempts
      ensures a in t.attempts && Advances(s.attempts[a], t.attempts[a])
    {
    }
    assert t.attempts.Keys == s.attempts.Keys;
    assert t.reservations == s.reservations && t.equity == s.equity;
  }

  lemma ReconcileKeepsCoherence(s: State, d: Data, g: nat, head: EventDigest)
    requires d.RiskReconciled? && StateCoherent(s) && ApplyReconcile(s, d).Some? && g == s.generation + 1
    ensures var t := ApplyReconcile(s, d).value.(generation := g, head := head);
            StateCoherent(t) && Evolves(s, t)
  {
    var t := ApplyReconcile(s, d).value.(generation := g, head := head);
    var order := s.attempts[d.attempt].preparation.order;
    assert t.reservations == s.reservations[order := t.reservations[order]];
    assert MayTouch(s, t, d.attempt, order);
    forall k | k in s.reservations
      ensures ReservationEvolves(s, t, k)
    {
    }
  }

  lemma EquityKeepsCoherence(s: State, account: Id, q: Equity, g: nat, head: EventDigest)
    requires StateCoherent(s) && ApplyEquity(s, account, q).Some? && g == s.generation + 1
    ensures var t := ApplyEquity(s, account, q).value.(generation := g, head := head);
            StateCoherent(t) && Evolves(s, t)
  {
    var t := ApplyEquity(s, account, q).value.(generation := g, head := head);
    assert t.attempts == s.attempts && t.reservations == s.reservations;
    assert EquityEvolves(s.equity, t.equity);
    forall k | k in s.reservations
      ensures ReservationEvolves(s, t, k)
    {
    }
  }

  lemma ReservationKeepsCoherence(s: State, f: RiskFacts, g: nat, head: EventDigest)
    requires StateCoherent(s) && ApplyReservation(s, f).Some? && g == s.generation + 1
    ensures var t := ApplyReservation(s, f).value.(generation := g, head := head);
            StateCoherent(t) && Evolves(s, t)
  {
    var t := ApplyReservation(s, f).value.(generation := g, head := head);
    assert t.reservations == s.reservations[f.order := t.reservations[f.order]];
    forall k | k in s.reservations
      ensures ReservationEvolves(s, t, k)
    {
    }
  }

  /** Every accepted event keeps the state coherent and moves it forward only. */
  lemma ApplyKeepsCoherence(s: State, account: Id, e: Event)
    requires StateCoherent(s) && Apply(s, account, e).Some?
    ensures StateCoherent(Apply(s, account, e).value) && Evolves(s, Apply(s, account, e).value)
  {
    match e.data
    case Prepared(p) =>
      PreparedStaysCoherent(s, p, e.digest, e.sequence, e.digest);
      PreparedEvolves(s, p, e.digest, e.sequence, e.digest);
    case Observed(_, _, _) =>
      ObservedStaysCoherent(s, e.data, e.digest, e.sequence, e.digest);
      ObservedEvolves(s, e.data, e.digest, e.sequence, e.digest);
    case RiskReconciled(_, _, _, _, _) => ReconcileKeepsCoherence(s, e.data, e.sequence, e.digest);
    case EquityObserved(q) => EquityKeepsCoherence(s, account, q, e.sequence, e.digest);
    case RiskReserved(f) => ReservationKeepsCoherence(s, f, e.sequence, e.digest);
    case _ =>
  }

  // ----- Whole journals -----

  /** Every state a journal reduces to is coherent. */
  lemma {:induction false} FoldIsCoherent(account: Id, log: seq<Event>)
    ensures StateCoherent(Fold(account, log).state)
    decreases |log|
  {
    if log != [] {
      var before := Fold(account, log[..|log| - 1]);
      FoldIsCoherent(account, log[..|log| - 1]);
      if before.readable && Apply(before.state, account, log[|log| - 1]).Some? {
        ApplyKeepsCoherence(before.state, account, log[|log| - 1]);
      }
    }
  }

  /** The reduced state of a longer journal evolves from the reduced state of every prefix. */
  lemma {:induction false} FoldEvolves(account: Id, log: seq<Event>, longer: seq<Event>)
    requires log <= longer
    ensures Evolves(Fold(account, log).state, Fold(account, longer).state)
    ensures Fold(account, longer).readable ==> Fold(account, log).readable
    decreases |longer|
  {
    if |log| == |longer| {
      assert log == longer;
      EvolvesReflexive(Fold(account, log).state);
    } else {
      var shorter := longer[..|longer| - 1];
      FoldEvolves(account, log, shorter);
      var before := Fold(account, shorter);
      FoldIsCoherent(account, shorter);
      if before.readable && Apply(before.state, account, longer[|longer| - 1]).Some? {
        ApplyKeepsCoherence(before.state, account, longer[|longer| - 1]);
        EvolvesTransitive(Fold(account, log).state, before.state, Fold(account, longer).state);
      }
    }
  }

  // ----- The attempt automaton -----

  /** What any accepted journal says about one attempt, now and in every later journal. */
  lemma AttemptAutomaton(account: Id, log: seq<Event>, longer: seq<Event>, a: Id)
    requires log <= longer && a in Fold(account, log).state.attempts
    ensures
      var s, t := Fold(account, log).state, Fold(account, longer).state;
      var now := s.attempts[a];
      && a in t.attempts && Advances(now, t.attempts[a])
      && 0.0 <= now.filled <= now.preparation.quantity
      && (now.certainty == KNOWN_PENDING ==> BrokerOrderOf(now).Some?)
      && (now.certainty == TERMINAL ==> now.observation.Some?)
      && (now.observation.Some? && now.certainty == TERMINAL && now.observation.value.status.Filled? ==>
          now.filled == now.preparation.quantity)
      && (forall b :: b in s.attempts && b != a && now.certainty == PREPARED ==> s.attempts[b].certainty != PREPARED)
  {
    FoldIsCoherent(account, log);
    FoldEvolves(account, log, longer);
    var s := Fold(account, log).state;
    assert AttemptCoherent(s.attempts[a]);
    forall b | b in s.attempts && b != a && s.attempts[a].certainty == PREPARED
      ensures s.attempts[b].certainty != PREPARED
    {
      assert Compatible(s.attempts[a], s.attempts[b]);
    }
  }

  /** The attempt is the only one for its order. */
  ghost predicate OnlyAttemptForOrder(s: State, a: Id) {
    a in s.attempts &&
    forall b :: b in s.attempts && s.attempts[b].preparation.order == s.attempts[a].preparation.order ==> b == a
  }

  /**
   * UNKNOWN freezes the account: no attempt is ever added, the UNKNOWN attempt never changes, and the
   * reservation of its order keeps every amount when no other attempt shares the order.
   */
  lemma UnknownFreezesAccount(account: Id, log: seq<Event>, longer: seq<Event>, a: Id)
    requires log <= longer
    requires a in Fold(account, log).state.attempts && Fold(account, log).state.attempts[a].certainty == UNKNOWN
    ensures
      var s, t := Fold(account, log).state, Fold(account, longer).state;
      var order := s.attempts[a].preparation.order;
      && t.attempts.Keys == s.attempts.Keys
      && t.attempts[a] == s.attempts[a]
      && (order in s.reservations ==> order in t.reservations)
      && (order in s.reservations && t.reservations[order] != s.reservations[order] ==>
            exists b :: b != a && MayTouch(s, t, b, order))
      && (order in s.reservations && OnlyAttemptForOrder(s, a) ==> t.reservations[order] == s.reservations[order])
  {
    FoldEvolves(account, log, longer);
    var s, t := Fold(account, log).state, Fold(account, longer).state;
    var order := s.attempts[a].preparation.order;
    assert a in t.attempts.Keys;
    if order in s.reservations {
      assert ReservationEvolves(s, t, order);
      forall b | MayTouch(s, t, b, order)
        ensures b != a && b in s.attempts && s.attempts[b].preparation.order == order
      {
        assert b in s.attempts.Keys;
        assert Advances(s.attempts[b], t.attempts[b]);
      }
    }
  }

  function ReservationAt(account: Id, log: seq<Event>, k: OrderDigest): Option<Reservation> {
    var s := Fold(account, log).state;
    if k in s.reservations then Some(s.reservations[k]) else None
  }

  /** The event reconciles an attempt of order `k` with facts that agree with the state it was applied to. */
  predicate ReconcilesOrder(s: State, d: Data, k: OrderDigest) {
    && d.RiskReconciled?
    && ReconcileFactsAgree(s, d.attempt, d.filled, d.fee, d.positionRisk, d.source)
    && s.attempts[d.attempt].preparation.order == k
  }

  lemma OnlyReconcileChangesReservation(s: State, account: Id, e: Event, k: OrderDigest)
    requires k in s.reservations && Apply(s, account, e).Some?
    ensures k in Apply(s, account, e).value.reservations
    ensures Apply(s, account, e).value.reservations[k] != s.reservations[k] ==> ReconcilesOrder(s, e.data, k)
  {
  }

  /**
   * Any change to a reservation comes from a reconciliation event on the journal as it then was: of an attempt of
   * the order that is pending or terminal, against a snapshot from another source, strictly newer than the
   * reservation, that covers exactly the attempt's fills and fees.
   */
  lemma {:induction false} ReservationChangeNeedsCoveringSnapshot(account: Id, log: seq<Event>, longer: seq<Event>,
          k: OrderDigest)
    returns (i: nat)
    requires log <= longer
    requires ReservationAt(account, log, k).Some?
    requires ReservationAt(account, longer, k) != ReservationAt(account, log, k)
    ensures |log| <= i < |longer|
    ensures
      var s, d := Fold(account, longer[..i]).state, longer[i].data;
      && ReconcilesOrder(s, d, k)
      && var a, q := s.attempts[d.attempt], s.equity.value;
      && (a.certainty == TERMINAL || a.certainty == KNOWN_PENDING)
      && q.valuationAt > s.reservations[k].facts.valuationAt && q.source != s.reservations[k].facts.source
      && q.coveredFills[d.attempt] == a.filled == d.filled && q.coveredFees[d.attempt] == d.fee
    decreases |longer|
  {
    hide Apply;
    assert |log| < |longer| by {
      assert |log| == |longer| ==> log == longer;
    }
    var n := |longer| - 1;
    if ReservationAt(account, longer[..n], k) != ReservationAt(account, log, k) {
      i := ReservationChangeNeedsCoveringSnapshot(account, log, longer[..n], k);
      assert longer[..i] == longer[..n][..i];
    } else {
      i := n;
      var before := Fold(account, longer[..n]);
      if before.readable && Apply(before.state, account, longer[n]).Some? {
        OnlyReconcileChangesReservation(before.state, account, longer[n], k);
      }
    }
  }

  // ----- The breaker -----

  lemma OnlyOpenOpens(s: State, account: Id, e: Event)
    requires Apply(s, account, e).Some?
    ensures Apply(s, account, e).value.breakerOpen <==> s.breakerOpen || e.data.BreakerOpened?
  {
  }

  /** OPEN in the reduced state is exactly an OPEN event in the journal. */
  lemma {:induction false} BreakerStateIsBreakerEvent(account: Id, log: seq<Event>)
    requires Fold(account, log).readable
    ensures Fold(account, log).state.breakerOpen <==> exists i :: 0 <= i < |log| && log[i].data.BreakerOpened?
    decreases |log|
  {
    hide Apply;
    if log != [] {
      var n := |log| - 1;
      OnlyOpenOpens(Fold(account, log[..n]).state, account, log[n]);
      BreakerStateIsBreakerEvent(account, log[..n]);
      assert forall i :: 0 <= i < n ==> log[..n][i] == log[i];
      if Fold(account, log[..n]).state.breakerOpen {
        var i :| 0 <= i < n && log[..n][i].data.BreakerOpened?;
        assert log[i].data.BreakerOpened?;
      }
    }
  }

  /** In an accepted journal OPEN occurs at most once and no new-risk preparation follows it. */
  lemma NoNewRiskAfterOpen(account: Id, log: seq<Event>, i: nat, j: nat)
    requires i < j < |log| && Fold(account, log).readable && log[i].data.BreakerOpened?
    ensures !log[j].data.BreakerOpened?
    ensures log[j].data.Prepared? ==> !log[j].data.preparation.purpose.NewRisk?
  {
    hide Apply, Evolves;
    var before, after := log[..j], log[..j + 1];
    FoldEvolves(account, after, log);
    assert after[..j] == before && after[j] == log[j];
    BreakerStateIsBreakerEvent(account, before);
    assert before[i].data.BreakerOpened?;
    OpenRejectsNewRisk(Fold(account, before).state, account, log[j]);
  }

  lemma OpenRejectsNewRisk(s: State, account: Id, e: Event)
    requires s.breakerOpen && Apply(s, account, e).Some?
    ensures !e.data.BreakerOpened? && (e.data.Prepared? ==> !e.data.preparation.purpose.NewRisk?)
  {
  }

  // ----- The hash chain -----

  lemma ApplyChecksHeader(s: State, account: Id, e: Event)
    requires Apply(s, account, e).Some?
    ensures HeaderValid(s, account, e)
    ensures Apply(s, account, e).value.generation == e.sequence && Apply(s, account, e).value.head == e.digest
  {
  }

  /** Event `i` sits at its sequence number, names its predecessor's digest and carries its own. */
  predicate Linked(account: Id, log: seq<Event>, i: nat)
    requires i < |log|
  {
    && log[i].account == account && log[i].sequence == i + 1
    && log[i].previous == (if i == 0 then Genesis else log[i - 1].digest)
    && log[i].digest == DigestOf(account, log[i].sequence, log[i].previous, log[i].data)
  }

  /** An accepted journal is gapless and every event names the digest of the one before it. */
  lemma {:induction false} AcceptedJournalIsChained(account: Id, log: seq<Event>)
    requires Fold(account, log).readable
    ensures Fold(account, log).state.generation == |log|
    ensures Fold(account, log).state.head == if log == [] then Genesis else log[|log| - 1].digest
    ensures forall i :: 0 <= i < |log| ==> Linked(account, log, i)
    decreases |log|
  {
    hide Apply;
    if log != [] {
      var n := |log| - 1;
      var shorter := log[..n];
      AcceptedJournalIsChained(account, shorter);
      ApplyChecksHeader(Fold(account, shorter).state, account, log[n]);
      forall i | 0 <= i < |log|
        ensures Linked(account, log, i)
      {
        if i < n {
          assert Linked(account, shorter, i);
        }
      }
    }
  }

  function Tip(log: seq<Event>): EventDigest {
    if log == [] then Genesis else log[|log| - 1].digest
  }

  lemma {:induction false} TipIdentifiesChain(account: Id, one: seq<Event>, two: seq<Event>)
    requires forall i :: 0 <= i < |one| ==> Linked(account, one, i)
    requires forall i :: 0 <= i < |two| ==> Linked(account, two, i)
    requires Tip(one) == Tip(two)
    ensures one == two
    decreases |one|
  {
    assert one != [] ==> Linked(account, one, |one| - 1);
    assert two != [] ==> Linked(account, two, |two| - 1);
    if one != [] && two != [] {
      var m, n := |one| - 1, |two| - 1;
      var shortOne, shortTwo := one[..m], two[..n];
      forall i | 0 <= i < m ensures Linked(account, shortOne, i) { assert Linked(account, one, i); }
      forall i | 0 <= i < n ensures Linked(account, shortTwo, i) { assert Linked(account, two, i); }
      TipIdentifiesChain(account, shortOne, shortTwo);
      assert one[m] == two[n];
      assert one == shortOne + [one[m]] && two == shortTwo + [two[n]];
    }
  }

  /** The head digest identifies the whole journal: two accepted journals with the same head are the same. */
  lemma HeadIdentifiesJournal(account: Id, one: seq<Event>, two: seq<Event>)
    requires Fold(account, one).readable && Fold(account, two).readable
    requires Fold(account, one).state.head == Fold(account, two).state.head
    ensures one == two
  {
    AcceptedJournalIsChained(account, one);
    AcceptedJournalIsChained(account, two);
    TipIdentifiesChain(account, one, two);
  }

  // ----- Where attempts come from -----

  lemma NewAttemptIsPrepared(s: State, account: Id, e: Event, a: Id)
    requires Apply(s, account, e).Some? && a in Apply(s, account, e).value.attempts && a !in s.attempts
    ensures
      var x := Apply(s, account, e).value.attempts[a];
      e.data == Prepared(x.preparation) && PreparationAllowed(s, x.preparation) && x.generation == s.generation + 1
  {
  }

  /** The journal up to the event that prepared the attempt. */
  function BeforeAttempt(log: seq<Event>, a: Attempt): seq<Event>
    requires 1 <= a.generation <= |log|
  {
    log[..a.generation - 1]
  }

  /** The preparation stands in the journal at the attempt's generation, and was admitted on what preceded it. */
  ghost predicate HasOrigin(account: Id, log: seq<Event>, a: Attempt) {
    && 1 <= a.generation <= |log| && log[a.generation - 1].data == Prepared(a.preparation)
    && Fold(account, BeforeAttempt(log, a)).readable
    && PreparationAllowed(Fold(account, BeforeAttempt(log, a)).state, a.preparation)
  }

  lemma {:induction false} AttemptOrigin(account: Id, log: seq<Event>, a: Id)
    requires a in Fold(account, log).state.attempts
    ensures HasOrigin(account, log, Fold(account, log).state.attempts[a])
    decreases |log|
  {
    hide Apply, PreparationAllowed;
    var n := |log| - 1;
    var before := Fold(account, log[..n]);
    var x := Fold(account, log).state.attempts[a];
    if a in before.state.attempts {
      AttemptOrigin(account, log[..n], a);
      FoldEvolves(account, log[..n], log);
      assert Advances(before.state.attempts[a], x);
      assert log[..n][..x.generation - 1] == log[..x.generation - 1];
    } else {
      NewAttemptIsPrepared(before.state, account, log[n], a);
      AcceptedJournalIsChained(account, log[..n]);
    }
  }

  /** The account was bound to a domain when the attempt was prepared, and the attempt is not a reduction. */
  ghost predicate PreparedAgainstReservation(account: Id, log: seq<Event>, a: Attempt) {
    && HasOrigin(account, log, a)
    && Fold(account, BeforeAttempt(log, a)).state.binding.Some? && !a.preparation.purpose.Reduction?
  }

  /** An attempt that needed a reservation still finds it, with the facts it was admitted on. */
  lemma ReservationOfAttempt(account: Id, log: seq<Event>, a: Id)
    requires a in Fold(account, log).state.attempts
    requires PreparedAgainstReservation(account, log, Fold(account, log).state.attempts[a])
    ensures
      var s := Fold(account, log).state;
      var x := s.attempts[a];
      var origin := Fold(account, BeforeAttempt(log, x)).state;
      && x.preparation.order in origin.reservations && x.preparation.order in s.reservations
      && s.reservations[x.preparation.order].facts == origin.reservations[x.preparation.order].facts
  {
    hide Fold, StateCoherent;
    var s := Fold(account, log).state;
    var x := s.attempts[a];
    FoldEvolves(account, BeforeAttempt(log, x), log);
    assert ReservationEvolves(Fold(account, BeforeAttempt(log, x)).state, s, x.preparation.order);
  }

  /** One reservation backs one attempt: no two such attempts share an order. */
  lemma ReservationBacksOneAttempt(account: Id, log: seq<Event>, a: Id, b: Id)
    requires a in Fold(account, log).state.attempts && b in Fold(account, log).state.attempts
    requires PreparedAgainstReservation(account, log, Fold(account, log).state.attempts[a])
    requires PreparedAgainstReservation(account, log, Fold(account, log).state.attempts[b])
    requires Fold(account, log).state.attempts[a].preparation.order
        == Fold(account, log).state.attempts[b].preparation.order
    ensures a == b
  {
    var s := Fold(account, log).state;
    FoldIsCoherent(account, log);
    if a != b {
      assert Compatible(s.attempts[a], s.attempts[b]);
      if s.attempts[a].generation < s.attempts[b].generation {
        EarlierAttemptIsSeen(account, log, a, b);
      } else {
        EarlierAttemptIsSeen(account, log, b, a);
      }
    }
  }

  /** An attempt that is not a reduction is seen by every later preparation of the same order. */
  lemma EarlierAttemptIsSeen(account: Id, log: seq<Event>, early: Id, late: Id)
    requires early in Fold(account, log).state.attempts && late in Fold(account, log).state.attempts
    requires HasOrigin(account, log, Fold(account, log).state.attempts[early])
    requires HasOrigin(account, log, Fold(account, log).state.attempts[late])
    requires Fold(account, log).state.attempts[early].generation < Fold(account, log).state.attempts[late].generation
    requires !Fold(account, log).state.attempts[early].preparation.purpose.Reduction?
    requires Fold(account, log).state.attempts[early].preparation.order
        == Fold(account, log).state.attempts[late].preparation.order
    ensures ReservationUsed(Fold(account, BeforeAttempt(log, Fold(account, log).state.attempts[late])).state,
                            Fold(account, log).state.attempts[late].preparation.order)
  {
    hide Apply, PreparationAllowed;
    var s := Fold(account, log).state;
    var x, y := s.attempts[early], s.attempts[late];
    var shorter := BeforeAttempt(log, y);
    FoldEvolves(account, shorter, log);
    AcceptedJournalIsChained(account, shorter);
    assert early in Fold(account, shorter).state.attempts;
    assert Advances(Fold(account, shorter).state.attempts[early], x);
  }

  // ----- Equity watermarks -----

  /** The equity snapshots recorded in the journal, oldest first. */
  function EquityHistory(log: seq<Event>): seq<Equity> {
    if log == [] then []
    else
      var before := EquityHistory(log[..|log| - 1]);
      match log[|log| - 1].data
      case EquityObserved(q) => before + [q]
      case _ => before
  }

  /** Cash that flowed in after snapshot `i` was taken. */
  function LaterFlows(history: seq<Equity>, i: nat): real
    requires i < |history|
    decreases |history|
  {
    if i == |history| - 1 then 0.0
    else LaterFlows(history[..|history| - 1], i) + history[|history| - 1].cashFlow
  }

  /** The high-water mark once every earlier equity is credited with the cash that came later. */
  ghost predicate IsFlowAdjustedPeak(history: seq<Equity>, peak: real) {
    && (forall i {:trigger history[i]} :: 0 <= i < |history| ==> history[i].equity + LaterFlows(history, i) <= peak)
    && (exists i :: 0 <= i < |history| && history[i].equity + LaterFlows(history, i) == peak)
  }

  ghost predicate IsHighestEquity(history: seq<Equity>, highest: real) {
    && (forall i {:trigger history[i]} :: 0 <= i < |history| ==> history[i].equity <= highest)
    && (exists i :: 0 <= i < |history| && history[i].equity == highest)
  }

  /**
   * Closed forms of the recursive watermarks over any accepted journal: the recorded peak is the maximum of
   * equity plus later flows, the protected equity is the plain maximum, and valuations strictly increase.
   */
  lemma {:induction false} WatermarkClosedForms(account: Id, log: seq<Event>)
    requires Fold(account, log).readable
    ensures
      var h := EquityHistory(log);
      var q := Fold(account, log).state.equity;
      && (q.None? <==> h == [])
      && (q.Some? ==>
            && h[|h| - 1] == q.value
            && IsFlowAdjustedPeak(h, q.value.peak)
            && IsHighestEquity(h, q.value.protectedEquity)
            && q.value.equity <= q.value.protectedEquity <= q.value.peak)
      && (forall i, j :: 0 <= i < j < |h| ==> h[i].valuationAt < h[j].valuationAt)
    decreases |log|
  {
    hide Apply, IsFlowAdjustedPeak, IsHighestEquity, ExpectedPeak, ExpectedProtected;
    assert EquityCoherent(Fold(account, log).state) by { FoldIsCoherent(account, log); }
    if log != [] {
      var n := |log| - 1;
      WatermarkClosedForms(account, log[..n]);
      var before := Fold(account, log[..n]).state;
      OnlyEquityEventsMoveEquity(before, account, log[n]);
      if log[n].data.EquityObserved? {
        WatermarkStep(EquityHistory(log[..n]), before.equity, log[n].data.snapshot);
      }
    }
  }

  lemma OnlyEquityEventsMoveEquity(s: State, account: Id, e: Event)
    requires Apply(s, account, e).Some?
    ensures
      var t := Apply(s, account, e).value;
      if e.data.EquityObserved? then
        var q := e.data.snapshot;
        && t.equity == Some(q)
        && q.peak == ExpectedPeak(s.equity, q.equity, q.cashFlow)
        && q.protectedEquity == ExpectedProtected(s.equity, q.equity)
        && (s.equity.Some? ==> q.valuationAt > s.equity.value.valuationAt)
      else t.equity == s.equity
  {
  }

  lemma WatermarkStep(h: seq<Equity>, previous: Option<Equity>, q: Equity)
    requires previous.None? <==> h == []
    requires previous.Some? ==>
        IsFlowAdjustedPeak(h, previous.value.peak) && IsHighestEquity(h, previous.value.protectedEquity)
    requires q.peak == ExpectedPeak(previous, q.equity, q.cashFlow)
    requires q.protectedEquity == ExpectedProtected(previous, q.equity)
    ensures IsFlowAdjustedPeak(h + [q], q.peak) && IsHighestEquity(h + [q], q.protectedEquity)
  {
    var g := h + [q];
    assert g[..|h|] == h && g[|h|] == q;
    forall i | 0 <= i < |h|
      ensures g[i] == h[i] && LaterFlows(g, i) == LaterFlows(h, i) + q.cashFlow
    {
    }
    assert LaterFlows(g, |h|) == 0.0;
    if h != [] {
      var p :| 0 <= p < |h| && h[p].equity + LaterFlows(h, p) == previous.value.peak;
      var e :| 0 <= e < |h| && h[e].equity == previous.value.protectedEquity;
      assert g[p].equity + LaterFlows(g, p) == previous.value.peak + q.cashFlow;
      assert g[e].equity == previous.value.protectedEquity;
    }
    assert g[|h|].equity + LaterFlows(g, |h|) == q.equity;
  }
}
