/**
 * What a readable journal says, without reducing it: every part of the reduced state is the last word of the
 * events that speak about it.
 */
module LastWord {
  import opened Prelude
  import opened Journal
  import opened JournalLaws

  // ----- Looking things up in a journal -----

  predicate Prepares(e: Event, id: Id) {
    e.data.Prepared? && e.data.preparation.attempt == id
  }

  predicate Observes(e: Event, id: Id) {
    e.data.Observed? && e.data.attempt == id
  }

  /** The event that prepared the attempt. */
  function PreparationIn(log: seq<Event>, id: Id): (r: Option<Event>)
    ensures r.Some? ==> Prepares(r.value, id)
  {
    if log == [] then None
    else if Prepares(log[|log| - 1], id) then Some(log[|log| - 1])
    else PreparationIn(log[..|log| - 1], id)
  }

  /** The last thing the broker was heard to say about the attempt. */
  function LastObservation(log: seq<Event>, id: Id): (r: Option<Event>)
    ensures r.Some? ==> Observes(r.value, id)
  {
    if log == [] then None
    else if Observes(log[|log| - 1], id) then Some(log[|log| - 1])
    else LastObservation(log[..|log| - 1], id)
  }

  /** The latest reception time that was recorded with an observation of the attempt. */
  function LastStamp(log: seq<Event>, id: Id): Option<Time> {
    if log == [] then None
    else
      var e := log[|log| - 1];
      if Observes(e, id) && e.data.recordedAt.Some? then e.data.recordedAt else LastStamp(log[..|log| - 1], id)
  }

  function BindingIn(log: seq<Event>): Option<Binding> {
    if log == [] then None
    else
      var e := log[|log| - 1];
      if e.data.DomainBound? then Some(e.data.binding) else BindingIn(log[..|log| - 1])
  }

  function SnapshotIn(log: seq<Event>): Option<Equity> {
    if log == [] then None
    else
      var e := log[|log| - 1];
      if e.data.EquityObserved? then Some(e.data.snapshot) else SnapshotIn(log[..|log| - 1])
  }

  function PositionRiskIn(log: seq<Event>): real {
    if log == [] then 0.0
    else
      match log[|log| - 1].data
      case EquityObserved(q) => q.positionRisk
      case RiskReconciled(_, _, _, risk, _) => risk
      case _ => PositionRiskIn(log[..|log| - 1])
  }

  predicate OpenIn(log: seq<Event>) {
    exists i :: 0 <= i < |log| && log[i].data.BreakerOpened?
  }

  /** The facts under which risk was reserved for the order. */
  function ReservedIn(log: seq<Event>, k: OrderDigest): (r: Option<RiskFacts>)
    ensures r.Some? ==> r.value.order == k
  {
    if log == [] then None
    else
      var e := log[|log| - 1];
      if e.data.RiskReserved? && e.data.facts.order == k then Some(e.data.facts) else ReservedIn(log[..|log| - 1], k)
  }

  /** The event reconciles an attempt that the journal before it prepared for this order. */
  predicate ReconcilesFor(log: seq<Event>, e: Event, k: OrderDigest) {
    && e.data.RiskReconciled?
    && var p := PreparationIn(log, e.data.attempt);
    && p.Some? && p.value.data.preparation.order == k
  }

  /** The last reconciliation of an attempt of the order. */
  function LastReconciliation(log: seq<Event>, k: OrderDigest): (r: Option<Event>)
    ensures r.Some? ==> r.value.data.RiskReconciled?
  {
    if log == [] then None
    else if ReconcilesFor(log[..|log| - 1], log[|log| - 1], k) then Some(log[|log| - 1])
    else LastReconciliation(log[..|log| - 1], k)
  }

  // ----- The reduced state says the same -----

  predicate AttemptIsLastWord(log: seq<Event>, id: Id, x: Attempt) {
    && var p := PreparationIn(log, id);
    && p.Some? && p.value.data.preparation == x.preparation
    && x.generation == p.value.sequence && x.digest == p.value.digest && 1 <= x.generation <= |log|
    && x.preparedSnapshot == SnapshotIn(log[..x.generation - 1]) && x.lastRecordedAt == LastStamp(log, id)
    && match LastObservation(log, id)
       case None =>
         x.certainty == PREPARED && x.filled == 0.0
         && x.observation.None? && x.observationDigest.None? && x.observationRecordedAt.None?
       case Some(e) =>
         && x.observation == Some(e.data.observation) && x.certainty == e.data.observation.certainty
         && x.filled == e.data.observation.filled && x.observationDigest == Some(e.digest)
         && x.observationRecordedAt == e.data.recordedAt
  }

  predicate ReservationIsLastWord(log: seq<Event>, k: OrderDigest, r: Reservation) {
    && ReservedIn(log, k) == Some(r.facts)
    && match LastReconciliation(log, k)
       case None => r == Reservation(r.facts, r.facts.amount, r.facts.reserved3x, 0.0, 0.0)
       case Some(e) => r.reconciledFilled == e.data.filled && r.actualFee == e.data.fee
  }

  predicate AccountIsLastWord(log: seq<Event>, s: State) {
    && s.binding == BindingIn(log) && s.equity == SnapshotIn(log) && s.positionRisk == PositionRiskIn(log)
    && (s.breakerOpen <==> OpenIn(log))
    && s.generation == |log| && s.head == Tip(log)
  }

  /** One event makes an attempt, adds an observation to it, or leaves it as it is. */
  lemma EventOnAttempt(account: Id, s: State, e: Event, id: Id)
    requires Apply(s, account, e).Some?
    ensures
      var t := Apply(s, account, e).value;
      if Prepares(e, id) then
        && id !in s.attempts && id in t.attempts
        && t.attempts[id]
            == Attempt(e.data.preparation, s.generation + 1, e.digest, PREPARED, None, 0.0, s.equity, None, None, None)
      else if Observes(e, id) then
        && id in s.attempts && id in t.attempts
        && t.attempts[id] == AfterObservation(s.attempts[id], e.data.observation, e.data.recordedAt, e.digest)
      else (id in t.attempts <==> id in s.attempts) && (id in s.attempts ==> t.attempts[id] == s.attempts[id])
  {
    hide ObservationAllowed, AfterObservation, EquityFactsValid, EvidenceAccepted, WorkingRisk, Working3x;
  }

  /** What is said of an attempt is all there is in the reduced state, present or not. */
  predicate AttemptAgrees(log: seq<Event>, s: State, id: Id) {
    && (id in s.attempts <==> PreparationIn(log, id).Some?)
    && (id in s.attempts ==> AttemptIsLastWord(log, id, s.attempts[id]))
    && (id !in s.attempts ==> LastObservation(log, id).None? && LastStamp(log, id).None?)
  }

  lemma AttemptStep(account: Id, s: State, log: seq<Event>, e: Event, id: Id)
    requires Apply(s, account, e).Some? && AccountIsLastWord(log, s) && AttemptAgrees(log, s, id)
    ensures AttemptAgrees(log + [e], Apply(s, account, e).value, id)
  {
    EventOnAttempt(account, s, e, id);
    ApplyChecksHeader(s, account, e);
    hide Apply;
    assert (log + [e])[..|log|] == log;
    var t := Apply(s, account, e).value;
    if id in t.attempts {
      var g := t.attempts[id].generation;
      assert g - 1 <= |log| ==> (log + [e])[..g - 1] == log[..g - 1];
    }
  }

  /** The journal's word on one attempt is its record in the reduced state. */
  lemma {:induction false} AttemptsAreLastWords(account: Id, log: seq<Event>, id: Id)
    requires Fold(account, log).readable
    ensures AttemptAgrees(log, Fold(account, log).state, id)
    decreases |log|
  {
    hide Apply, AttemptIsLastWord, AccountIsLastWord;
    if log != [] {
      var shorter, e := log[..|log| - 1], log[|log| - 1];
      AttemptsAreLastWords(account, shorter, id);
      AccountIsItsLastWord(account, shorter);
      AttemptStep(account, Fold(account, shorter).state, shorter, e, id);
      assert shorter + [e] == log;
    }
  }

  /** What one event does to the account's own facts. */
  lemma EventOnAccount(account: Id, s: State, e: Event)
    requires Apply(s, account, e).Some?
    ensures
      var t := Apply(s, account, e).value;
      && t.binding == (if e.data.DomainBound? then Some(e.data.binding) else s.binding)
      && t.equity == (if e.data.EquityObserved? then Some(e.data.snapshot) else s.equity)
      && t.positionRisk == (if e.data.EquityObserved? then e.data.snapshot.positionRisk
                            else if e.data.RiskReconciled? then e.data.positionRisk else s.positionRisk)
      && (t.breakerOpen <==> s.breakerOpen || e.data.BreakerOpened?)
  {
    hide EquityFactsValid, EvidenceAccepted, WorkingRisk, Working3x, ObservationAllowed, PreparationAllowed;
  }

  lemma OpenInLonger(log: seq<Event>, e: Event)
    ensures OpenIn(log + [e]) <==> OpenIn(log) || e.data.BreakerOpened?
  {
    assert (log + [e])[|log|] == e;
    assert forall i :: 0 <= i < |log| ==> (log + [e])[i] == log[i];
  }

  lemma AccountStep(account: Id, s: State, log: seq<Event>, e: Event)
    requires Apply(s, account, e).Some? && AccountIsLastWord(log, s)
    ensures AccountIsLastWord(log + [e], Apply(s, account, e).value)
  {
    EventOnAccount(account, s, e);
    ApplyChecksHeader(s, account, e);
    OpenInLonger(log, e);
    hide Apply, OpenIn;
    assert (log + [e])[..|log|] == log;
  }

  /** The binding, the snapshot, the position risk and the latch are what the journal last said of them. */
  lemma {:induction false} AccountIsItsLastWord(account: Id, log: seq<Event>)
    requires Fold(account, log).readable
    ensures AccountIsLastWord(log, Fold(account, log).state)
    decreases |log|
  {
    hide Apply, AccountIsLastWord;
    if log != [] {
      var shorter, e := log[..|log| - 1], log[|log| - 1];
      AccountIsItsLastWord(account, shorter);
      AccountStep(account, Fold(account, shorter).state, shorter, e);
      assert shorter + [e] == log;
    } else {
      NothingSaid();
    }
  }

  lemma NothingSaid()
    ensures AccountIsLastWord([], EMPTY_STATE)
  {
  }

  /** One event reserves risk for an order, reconciles it, or leaves its reservation as it is. */
  lemma EventOnReservation(account: Id, s: State, e: Event, k: OrderDigest)
    requires Apply(s, account, e).Some?
    ensures
      var t := Apply(s, account, e).value;
      if e.data.RiskReserved? && e.data.facts.order == k then
        && k !in s.reservations && k in t.reservations
        && t.reservations[k] == Reservation(e.data.facts, e.data.facts.amount, e.data.facts.reserved3x, 0.0, 0.0)
      else if e.data.RiskReconciled? && e.data.attempt in s.attempts
              && s.attempts[e.data.attempt].preparation.order == k then
        && k in s.reservations && k in t.reservations && t.reservations[k].facts == s.reservations[k].facts
        && t.reservations[k].reconciledFilled == e.data.filled && t.reservations[k].actualFee == e.data.fee
      else
        && (k in t.reservations <==> k in s.reservations)
        && (k in s.reservations ==> t.reservations[k] == s.reservations[k])
  {
    hide EquityFactsValid, EvidenceAccepted, WorkingRisk, Working3x, ObservationAllowed, PreparationAllowed;
  }

  predicate ReservationAgrees(log: seq<Event>, s: State, k: OrderDigest) {
    && (k in s.reservations <==> ReservedIn(log, k).Some?)
    && (k in s.reservations ==> ReservationIsLastWord(log, k, s.reservations[k]))
    && (k !in s.reservations ==> LastReconciliation(log, k).None?)
  }

  lemma ReservationStep(account: Id, s: State, log: seq<Event>, e: Event, k: OrderDigest)
    requires Apply(s, account, e).Some? && ReservationAgrees(log, s, k)
    requires e.data.RiskReconciled? ==> AttemptAgrees(log, s, e.data.attempt)
    ensures ReservationAgrees(log + [e], Apply(s, account, e).value, k)
  {
    EventOnReservation(account, s, e, k);
    if e.data.RiskReconciled? {
      ReconcilesKnownAttempt(account, s, e);
    }
    hide Apply, LastObservation, LastStamp, SnapshotIn;
    assert (log + [e])[..|log|] == log;
  }

  lemma ReconcilesKnownAttempt(account: Id, s: State, e: Event)
    requires Apply(s, account, e).Some? && e.data.RiskReconciled?
    ensures e.data.attempt in s.attempts
  {
  }

  /**
   * A reservation is the facts of its reservation event, whole until the journal reconciles an attempt of the
   * order, and reconciled as far as the last such event says.
   */
  lemma {:induction false} ReservationsAreLastWords(account: Id, log: seq<Event>, k: OrderDigest)
    requires Fold(account, log).readable
    ensures ReservationAgrees(log, Fold(account, log).state, k)
    decreases |log|
  {
    hide Apply, AttemptAgrees, ReservationIsLastWord;
    if log != [] {
      var shorter, e := log[..|log| - 1], log[|log| - 1];
      ReservationsAreLastWords(account, shorter, k);
      if e.data.RiskReconciled? {
        AttemptsAreLastWords(account, shorter, e.data.attempt);
      }
      ReservationStep(account, Fold(account, shorter).state, shorter, e, k);
      assert shorter + [e] == log;
    }
  }
}
