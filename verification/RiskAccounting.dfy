/** Reserved risk along whole journals: what reservations cover and how far commitments can grow. */
module RiskAccounting {
  import opened Prelude
  import opened CapitalEnvelope
  import opened RiskBudget
  import opened Journal
  import opened JournalLaws
  import opened Writers
  import opened Replayability

  // ----- Journals whose numbers come from the writers -----

  /** The reserved amount covers losing the whole order plus its estimated fee. */
  predicate FactsCover(f: RiskFacts) {
    f.lossPerUnit >= 0.0 && f.quantity * f.lossPerUnit + f.fee <= f.amount
  }

  /** The modeled loss of the units that are not filled yet. */
  function OpenLoss(f: RiskFacts, filled: real): real {
    f.lossPerUnit * (f.quantity - filled)
  }

  /** The event's quantities are the ones its order digest binds, and a reservation covers its order. */
  predicate Admitted(d: Data) {
    && (d.Prepared? ==> d.preparation.quantity == d.preparation.order.order.quantity)
    && (d.RiskReserved? ==> d.facts.quantity == d.facts.order.order.quantity && FactsCover(d.facts))
  }

  predicate AdmittedJournal(log: seq<Event>) {
    forall i :: 0 <= i < |log| ==> Admitted(log[i].data)
  }

  lemma WritersAdmit(c: Config, s: State, call: Call)
    requires Decide(c, s, call).Some?
    ensures Admitted(Decide(c, s, call).value)
  {
    if call.ReserveRisk? {
      var r := call.request;
      AdmittedQuantityIsCovered(r.amount, r.lossPerUnit, r.fee, r.step, r.order.quantity);
    }
  }

  // ----- Arithmetic of partial release -----

  /** A fresh reservation is the working formula at zero fills and zero fees. */
  lemma WorkingRiskAtZero(f: RiskFacts)
    requires f.quantity > 0.0 && f.fee >= 0.0
    ensures WorkingRisk(f, 0.0, 0.0) == f.amount && Working3x(f, 0.0) == f.reserved3x
  {
    assert 0.0 / f.quantity == 0.0;
  }

  lemma ShareLeft(quantity: real, less: real, more: real)
    requires quantity > 0.0 && 0.0 <= less <= more <= quantity
    ensures 0.0 <= 1.0 - more / quantity <= 1.0 - less / quantity <= 1.0
    ensures quantity * (1.0 - more / quantity) == quantity - more
  {
    QuotientIsMultiple(less, quantity);
    QuotientIsMultiple(more, quantity);
    SharesOrdered(quantity, less, more, less / quantity, more / quantity);
  }

  lemma SharesOrdered(quantity: real, less: real, more: real, x: real, y: real)
    requires quantity > 0.0 && 0.0 <= less <= more <= quantity
    requires IsMultiple(less, quantity, x) && IsMultiple(more, quantity, y)
    ensures 0.0 <= 1.0 - y <= 1.0 - x <= 1.0
    ensures IsMultiple(quantity - more, quantity, 1.0 - y)
  {
    hide IsMultiple;
    ZeroIsMultiple(quantity);
    OneIsMultiple(quantity);
    MultiplesCompare(0.0, less, quantity, 0.0, x);
    MultiplesCompare(less, more, quantity, x, y);
    MultiplesCompare(more, quantity, quantity, y, 1.0);
    RestIsMultiple(quantity, more, y);
  }

  lemma ScaleKeepsOrder(a: real, x: real, y: real)
    requires a >= 0.0 && x <= y
    ensures a * x <= a * y
  {
    assert a * (y - x) >= 0.0;
  }

  /** More fills and more fees never leave more risk reserved, and the amounts stay within bounds. */
  lemma WorkingRiskShrinks(f: RiskFacts, filled: real, fee: real, filled': real, fee': real)
    requires f.quantity > 0.0 && 0.0 <= f.fee <= f.amount && f.reserved3x >= 0.0
    requires 0.0 <= filled <= filled' <= f.quantity && 0.0 <= fee <= fee'
    ensures 0.0 <= WorkingRisk(f, filled', fee') <= WorkingRisk(f, filled, fee) <= f.amount
    ensures 0.0 <= Working3x(f, filled') <= Working3x(f, filled) <= f.reserved3x
  {
    ShareLeft(f.quantity, filled, filled');
    var x, y := 1.0 - filled / f.quantity, 1.0 - filled' / f.quantity;
    var net := f.amount - f.fee;
    SharesOfAmount(net, x, y);
    SharesOfAmount(f.reserved3x, x, y);
    AddFeeParts(net * x, net * y, net, f.fee, Max(0.0, f.fee - fee), Max(0.0, f.fee - fee'));
  }

  lemma SharesOfAmount(amount: real, x: real, y: real)
    requires amount >= 0.0 && 0.0 <= y <= x <= 1.0
    ensures 0.0 <= amount * y <= amount * x <= amount
  {
    ScaleKeepsOrder(amount, 0.0, y);
    ScaleKeepsOrder(amount, y, x);
    ScaleKeepsOrder(amount, x, 1.0);
  }

  lemma AddFeeParts(a: real, b: real, net: real, fee: real, left: real, left': real)
    requires 0.0 <= b <= a <= net && 0.0 <= left' <= left <= fee
    ensures 0.0 <= b + left' <= a + left <= net + fee
  {
  }

  /** What stays reserved still covers the modeled loss of every unit that is not filled. */
  lemma WorkingRiskCoversUnfilled(f: RiskFacts, filled: real, fee: real)
    requires FactsCover(f) && f.quantity > 0.0 && 0.0 <= filled <= f.quantity
    ensures WorkingRisk(f, filled, fee) >= OpenLoss(f, filled)
  {
    ShareLeft(f.quantity, filled, filled);
    var x := 1.0 - filled / f.quantity;
    var net := f.amount - f.fee;
    ScaleKeepsOrder(x, f.quantity * f.lossPerUnit, net);
    assert x * (f.quantity * f.lossPerUnit) == f.lossPerUnit * (f.quantity * x);
  }

  // ----- The reservation invariant -----

  /** Some attempt of this order has reached a terminal broker fact. */
  ghost predicate HasTerminalAttempt(s: State, k: OrderDigest) {
    exists a :: a in s.attempts && s.attempts[a].preparation.order == k && s.attempts[a].certainty == TERMINAL
  }

  /** Some attempt of this order has at least this much filled. */
  ghost predicate HasFilled(s: State, k: OrderDigest, filled: real) {
    exists a :: a in s.attempts && s.attempts[a].preparation.order == k && s.attempts[a].filled >= filled
  }

  predicate Released(r: Reservation) {
    r.remaining == 0.0 && r.remaining3x == 0.0
  }

  predicate Working(r: Reservation)
    requires r.facts.quantity != 0.0
  {
    r.remaining == WorkingRisk(r.facts, r.reconciledFilled, r.actualFee)
    && r.remaining3x == Working3x(r.facts, r.reconciledFilled)
  }

  /** A reservation is either exactly the working formula, or released after a terminal fact. */
  ghost predicate ReservationAccounted(s: State, k: OrderDigest)
    requires k in s.reservations
  {
    var r := s.reservations[k];
    && r.facts.order == k && r.facts.quantity == k.order.quantity && r.facts.quantity > 0.0 && FactsCover(r.facts)
    && 0.0 <= r.reconciledFilled <= r.facts.quantity && r.actualFee >= 0.0
    && (r.reconciledFilled == 0.0 || HasFilled(s, k, r.reconciledFilled))
    && (Working(r) || (Released(r) && HasTerminalAttempt(s, k)))
  }

  ghost predicate RiskAccounted(s: State) {
    && (forall a {:trigger s.attempts[a]} :: a in s.attempts ==>
        s.attempts[a].preparation.quantity == s.attempts[a].preparation.order.order.quantity)
    && (forall k {:trigger s.reservations[k]} :: k in s.reservations ==> ReservationAccounted(s, k))
  }

  /** The part of an attempt's evolution that accounting depends on. */
  lemma AccountingSurvives(s: State, t: State, k: OrderDigest)
    requires Evolves(s, t) && k in s.reservations && ReservationAccounted(s, k)
    requires k in t.reservations && t.reservations[k] == s.reservations[k]
    ensures ReservationAccounted(t, k)
  {
    var r := s.reservations[k];
    if HasFilled(s, k, r.reconciledFilled) {
      var a :| a in s.attempts && s.attempts[a].preparation.order == k && s.attempts[a].filled >= r.reconciledFilled;
      assert Advances(s.attempts[a], t.attempts[a]);
    }
    if HasTerminalAttempt(s, k) {
      var a :| a in s.attempts && s.attempts[a].preparation.order == k && s.attempts[a].certainty == TERMINAL;
      assert Advances(s.attempts[a], t.attempts[a]);
    }
  }

  lemma ReconcileStaysAccounted(s: State, d: Data)
    requires d.RiskReconciled? && StateCoherent(s) && RiskAccounted(s) && ApplyReconcile(s, d).Some?
    ensures var k := s.attempts[d.attempt].preparation.order;
            k in ApplyReconcile(s, d).value.reservations && ReservationAccounted(ApplyReconcile(s, d).value, k)
  {
    var t := ApplyReconcile(s, d).value;
    var a := s.attempts[d.attempt];
    assert AttemptCoherent(a) && ReservationAccounted(s, a.preparation.order);
    assert t.attempts[d.attempt] == a;
  }

  lemma EntryStaysAccounted(s: State, account: Id, e: Event, k: OrderDigest)
    requires StateCoherent(s) && RiskAccounted(s) && Admitted(e.data) && Apply(s, account, e).Some?
    requires Evolves(s, Apply(s, account, e).value)
    requires k in Apply(s, account, e).value.reservations
    ensures ReservationAccounted(Apply(s, account, e).value, k)
  {
    hide WorkingRisk, Working3x, FactsCover, StateCoherent, Evolves;
    var t := Apply(s, account, e).value;
    if k in s.reservations && t.reservations[k] == s.reservations[k] {
      AccountingSurvives(s, t, k);
    } else if k in s.reservations {
      OnlyReconcileChangesReservation(s, account, e, k);
      ReconcileStaysAccounted(s, e.data);
      SameAttemptsSameAccounting(ApplyReconcile(s, e.data).value, t, k);
    } else {
      assert e.data.RiskReserved? && e.data.facts.order == k;
      WorkingRiskAtZero(e.data.facts);
    }
  }

  lemma ApplyKeepsAccounting(s: State, account: Id, e: Event)
    requires StateCoherent(s) && RiskAccounted(s) && Admitted(e.data) && Apply(s, account, e).Some?
    ensures RiskAccounted(Apply(s, account, e).value)
  {
    hide Apply, StateCoherent, Evolves, ReservationAccounted;
    ApplyKeepsCoherence(s, account, e);
    AttemptQuantitiesStayBound(s, account, e);
    forall k | k in Apply(s, account, e).value.reservations
      ensures ReservationAccounted(Apply(s, account, e).value, k)
    {
      EntryStaysAccounted(s, account, e, k);
    }
  }

  lemma SameAttemptsSameAccounting(s: State, t: State, k: OrderDigest)
    requires s.attempts == t.attempts && s.reservations == t.reservations
    requires k in s.reservations && ReservationAccounted(s, k)
    ensures ReservationAccounted(t, k)
  {
  }

  lemma AttemptQuantitiesStayBound(s: State, account: Id, e: Event)
    requires RiskAccounted(s) && Admitted(e.data) && Apply(s, account, e).Some?
    ensures var t := Apply(s, account, e).value;
            forall a {:trigger t.attempts[a]} :: a in t.attempts ==>
                t.attempts[a].preparation.quantity == t.attempts[a].preparation.order.order.quantity
  {
    var t := Apply(s, account, e).value;
    forall a | a in t.attempts
      ensures t.attempts[a].preparation.quantity == t.attempts[a].preparation.order.order.quantity
    {
      if a in s.attempts {
        assert t.attempts[a].preparation == s.attempts[a].preparation;
      }
    }
  }

  /** Every journal written by the writers keeps its reservations accounted for. */
  lemma {:induction false} JournalStaysAccounted(account: Id, log: seq<Event>)
    requires AdmittedJournal(log)
    ensures RiskAccounted(Fold(account, log).state)
    decreases |log|
  {
    hide Apply;
    if log != [] {
      var shorter := log[..|log| - 1];
      JournalStaysAccounted(account, shorter);
      FoldIsCoherent(account, shorter);
      var before := Fold(account, shorter);
      if before.readable && Apply(before.state, account, log[|log| - 1]).Some? {
        ApplyKeepsAccounting(before.state, account, log[|log| - 1]);
      }
    }
  }

  // ----- Release -----

  /** Event `i` of the journal reconciles a terminal attempt of the order. */
  ghost predicate ReconcilesTerminal(account: Id, log: seq<Event>, k: OrderDigest, i: nat)
    requires i < |log|
  {
    var s, d := Fold(account, log[..i]).state, log[i].data;
    ReconcilesOrder(s, d, k) && s.attempts[d.attempt].certainty == TERMINAL
  }

  ghost predicate TerminallyReconciled(account: Id, log: seq<Event>, k: OrderDigest) {
    exists i :: 0 <= i < |log| && ReconcilesTerminal(account, log, k, i)
  }

  lemma TerminallyReconciledStays(account: Id, log: seq<Event>, e: Event, k: OrderDigest)
    requires TerminallyReconciled(account, log, k)
    ensures TerminallyReconciled(account, log + [e], k)
  {
    var i :| 0 <= i < |log| && ReconcilesTerminal(account, log, k, i);
    assert (log + [e])[..i] == log[..i] && (log + [e])[i] == log[i];
    assert ReconcilesTerminal(account, log + [e], k, i);
  }

  /** One event leaves an entry alone, adds it whole, or reconciles it by the working formula unless terminal. */
  lemma EventOnReservation(s: State, account: Id, e: Event, k: OrderDigest)
    requires StateCoherent(s) && Apply(s, account, e).Some? && k in Apply(s, account, e).value.reservations
    ensures
      var r := Apply(s, account, e).value.reservations[k];
      || (k in s.reservations && r == s.reservations[k])
      || (r.facts.quantity != 0.0 && Working(r))
      || (ReconcilesOrder(s, e.data, k) && s.attempts[e.data.attempt].certainty == TERMINAL && Released(r))
  {
    if k !in s.reservations {
      hide WorkingRisk, Working3x;
      assert e.data.RiskReserved? && e.data.facts.order == k;
      WorkingRiskAtZero(e.data.facts);
    } else {
      hide WorkingRisk, Working3x;
      OnlyReconcileChangesReservation(s, account, e, k);
    }
  }

  /** A reservation is the working formula until a terminal reconciliation releases it. */
  lemma {:induction false} WorkingUntilReleased(account: Id, log: seq<Event>, k: OrderDigest)
    requires k in Fold(account, log).state.reservations
    ensures
      var r := Fold(account, log).state.reservations[k];
      (r.facts.quantity != 0.0 && Working(r)) || (Released(r) && TerminallyReconciled(account, log, k))
    decreases |log|
  {
    hide Apply, Working, Released, StateCoherent, ReconcilesOrder;
    var n := |log| - 1;
    var shorter, e := log[..n], log[n];
    assert log == shorter + [e];
    var before := Fold(account, shorter);
    FoldIsCoherent(account, shorter);
    if before.readable && Apply(before.state, account, e).Some? {
      EventOnReservation(before.state, account, e, k);
    }
    if k in before.state.reservations && Fold(account, log).state.reservations[k] == before.state.reservations[k] {
      WorkingUntilReleased(account, shorter, k);
      if TerminallyReconciled(account, shorter, k) {
        TerminallyReconciledStays(account, shorter, e, k);
      }
    } else {
      var r := Fold(account, log).state.reservations[k];
      if r.facts.quantity == 0.0 || !Working(r) {
        assert ReconcilesTerminal(account, log, k, n);
      }
    }
  }

  // ----- Who was reconciled ahead of whom -----

  /** Event `i` reconciles an attempt of the order up to this much filled. */
  ghost predicate ReconciledTo(account: Id, log: seq<Event>, k: OrderDigest, filled: real, i: nat)
    requires i < |log|
  {
    ReconcilesOrder(Fold(account, log[..i]).state, log[i].data, k) && log[i].data.filled == filled
  }

  lemma ReconciledToStays(account: Id, log: seq<Event>, e: Event, k: OrderDigest, filled: real, i: nat)
    requires i < |log| && ReconciledTo(account, log, k, filled, i)
    ensures ReconciledTo(account, log + [e], k, filled, i)
  {
    assert (log + [e])[..i] == log[..i] && (log + [e])[i] == log[i];
  }

  lemma EventOnReconciledFills(s: State, account: Id, e: Event, k: OrderDigest)
    requires Apply(s, account, e).Some? && k in Apply(s, account, e).value.reservations
    ensures
      var filled := Apply(s, account, e).value.reservations[k].reconciledFilled;
      if k !in s.reservations then filled == 0.0
      else filled == s.reservations[k].reconciledFilled || (ReconcilesOrder(s, e.data, k) && e.data.filled == filled)
  {
    hide WorkingRisk, Working3x;
    if k in s.reservations {
      OnlyReconcileChangesReservation(s, account, e, k);
    }
  }

  /** The fills a reservation is reconciled to are those of one reconciliation event. */
  lemma {:induction false} ReconciledFillsOrigin(account: Id, log: seq<Event>, k: OrderDigest)
    requires k in Fold(account, log).state.reservations
    ensures
      var filled := Fold(account, log).state.reservations[k].reconciledFilled;
      filled == 0.0 || exists i :: 0 <= i < |log| && ReconciledTo(account, log, k, filled, i)
    decreases |log|
  {
    hide Apply, ReconciledTo;
    var n := |log| - 1;
    var shorter, e := log[..n], log[n];
    assert log == shorter + [e];
    var before := Fold(account, shorter);
    var filled := Fold(account, log).state.reservations[k].reconciledFilled;
    if before.readable && Apply(before.state, account, e).Some? {
      EventOnReconciledFills(before.state, account, e, k);
    }
    if k in before.state.reservations && filled == before.state.reservations[k].reconciledFilled {
      ReconciledFillsOrigin(account, shorter, k);
      if filled != 0.0 {
        var i :| 0 <= i < |shorter| && ReconciledTo(account, shorter, k, filled, i);
        ReconciledToStays(account, shorter, e, k, filled, i);
      }
    } else if filled != 0.0 {
      LastReconciledTo(account, log, k);
    }
  }

  lemma LastReconciledTo(account: Id, log: seq<Event>, k: OrderDigest)
    requires log != [] && ReconcilesOrder(Fold(account, log[..|log| - 1]).state, log[|log| - 1].data, k)
    ensures ReconciledTo(account, log, k, log[|log| - 1].data.filled, |log| - 1)
  {
  }

  /** Event `i` reconciles another attempt of the order, one that was terminal or had more filled than this. */
  ghost predicate OvertakesAt(account: Id, log: seq<Event>, k: OrderDigest, a: Id, filled: real, i: nat)
    requires i < |log|
  {
    var s, d := Fold(account, log[..i]).state, log[i].data;
    ReconcilesOrder(s, d, k) && d.attempt != a && (s.attempts[d.attempt].certainty == TERMINAL || d.filled > filled)
  }

  ghost predicate Overtaken(account: Id, log: seq<Event>, k: OrderDigest, a: Id, filled: real) {
    exists i :: 0 <= i < |log| && OvertakesAt(account, log, k, a, filled, i)
  }

  /** A reconciled attempt is still there, with no less filled, and terminal if it was. */
  lemma ReconciledAttemptLater(account: Id, log: seq<Event>, k: OrderDigest, i: nat)
    requires i < |log| && ReconcilesOrder(Fold(account, log[..i]).state, log[i].data, k)
    ensures
      var b := log[i].data.attempt;
      var s, t := Fold(account, log[..i]).state, Fold(account, log).state;
      && b in t.attempts && t.attempts[b].preparation.order == k && log[i].data.filled <= t.attempts[b].filled
      && (s.attempts[b].certainty == TERMINAL ==> t.attempts[b].certainty == TERMINAL)
  {
    hide Fold;
    FoldEvolves(account, log[..i], log);
    assert Advances(Fold(account, log[..i]).state.attempts[log[i].data.attempt],
                    Fold(account, log).state.attempts[log[i].data.attempt]);
  }

  /** A reservation that was reconciled further than this attempt was so on account of another one. */
  lemma FurtherMeansOvertaken(account: Id, log: seq<Event>, k: OrderDigest, a: Id)
    requires k in Fold(account, log).state.reservations && a in Fold(account, log).state.attempts
    requires
      var s := Fold(account, log).state;
      s.reservations[k].reconciledFilled > s.attempts[a].filled >= 0.0
    ensures Overtaken(account, log, k, a, Fold(account, log).state.attempts[a].filled)
  {
    hide Fold, ReconcilesOrder;
    var t := Fold(account, log).state;
    ReconciledFillsOrigin(account, log, k);
    var i :| 0 <= i < |log| && ReconciledTo(account, log, k, t.reservations[k].reconciledFilled, i);
    ReconciledAttemptLater(account, log, k, i);
    assert OvertakesAt(account, log, k, a, t.attempts[a].filled, i);
  }

  /** A reservation that was released although this attempt is open was so on account of another one. */
  lemma ReleasedMeansOvertaken(account: Id, log: seq<Event>, k: OrderDigest, a: Id)
    requires TerminallyReconciled(account, log, k) && a in Fold(account, log).state.attempts
    requires Fold(account, log).state.attempts[a].certainty != TERMINAL
    ensures Overtaken(account, log, k, a, Fold(account, log).state.attempts[a].filled)
  {
    hide Fold, ReconcilesOrder;
    var t := Fold(account, log).state;
    var i :| 0 <= i < |log| && ReconcilesTerminal(account, log, k, i);
    ReconciledAttemptLater(account, log, k, i);
    assert OvertakesAt(account, log, k, a, t.attempts[a].filled, i);
  }

  /** What has been said of one attempt `a` of the order: covered, overtaken, or terminal itself and released. */
  ghost predicate CoveredOrOvertaken(account: Id, log: seq<Event>, k: OrderDigest, a: Id)
    requires k in Fold(account, log).state.reservations && a in Fold(account, log).state.attempts
  {
    var s := Fold(account, log).state;
    var r, x := s.reservations[k], s.attempts[a];
    || r.remaining >= OpenLoss(r.facts, x.filled)
    || Overtaken(account, log, k, a, x.filled)
    || (x.certainty == TERMINAL && Released(r) && TerminallyReconciled(account, log, k))
  }

  lemma OnlyAttemptIsNotOvertaken(account: Id, log: seq<Event>, k: OrderDigest, a: Id)
    requires OnlyAttemptForOrder(Fold(account, log).state, a)
    requires Fold(account, log).state.attempts[a].preparation.order == k
    ensures !Overtaken(account, log, k, a, Fold(account, log).state.attempts[a].filled)
  {
    hide Fold, ReconcilesOrder;
    forall i | 0 <= i < |log|
      ensures !OvertakesAt(account, log, k, a, Fold(account, log).state.attempts[a].filled, i)
    {
      if ReconcilesOrder(Fold(account, log[..i]).state, log[i].data, k) {
        ReconciledAttemptLater(account, log, k, i);
      }
    }
  }

  lemma WorkingCovers(s: State, k: OrderDigest, filled: real)
    requires StateCoherent(s) && RiskAccounted(s) && k in s.reservations && s.reservations[k].facts.quantity != 0.0
    requires Working(s.reservations[k]) && s.reservations[k].reconciledFilled <= filled
    ensures s.reservations[k].remaining >= OpenLoss(s.reservations[k].facts, filled)
  {
    hide StateCoherent, RiskAccounted, HasTerminalAttempt, Working;
    var f := s.reservations[k].facts;
    AccountedReservationBounds(s, k);
    ScaleKeepsOrder(f.lossPerUnit, f.quantity - filled, f.quantity - s.reservations[k].reconciledFilled);
  }

  lemma AttemptIsCoveredOrOvertaken(account: Id, log: seq<Event>, k: OrderDigest, a: Id)
    requires AdmittedJournal(log) && k in Fold(account, log).state.reservations
    requires a in Fold(account, log).state.attempts
    ensures CoveredOrOvertaken(account, log, k, a)
  {
    hide Fold, AdmittedJournal, RiskAccounted, Working, Released, OpenLoss, Overtaken, TerminallyReconciled;
    var s := Fold(account, log).state;
    JournalStaysAccounted(account, log);
    FoldIsCoherent(account, log);
    assert AttemptCoherent(s.attempts[a]);
    hide StateCoherent;
    WorkingUntilReleased(account, log, k);
    if s.reservations[k].reconciledFilled > s.attempts[a].filled {
      FurtherMeansOvertaken(account, log, k, a);
    } else if s.reservations[k].facts.quantity != 0.0 && Working(s.reservations[k]) {
      WorkingCovers(s, k, s.attempts[a].filled);
    } else if s.attempts[a].certainty != TERMINAL {
      ReleasedMeansOvertaken(account, log, k, a);
    }
  }

  /**
   * A reservation still covers what can be lost, attempt by attempt and whatever other attempts share the order.
   * Remaining amounts stay within what was reserved. Until a terminal attempt of the order is reconciled, the
   * remaining amount covers every unit not yet reconciled. For each attempt it covers the units not yet filled,
   * unless an earlier event reconciled another attempt of the order that was terminal or had more filled, or the
   * attempt is terminal itself and was released. An attempt that is alone on its order is never overtaken.
   */
  lemma ReservationCoversOpenLoss(account: Id, log: seq<Event>, k: OrderDigest)
    requires AdmittedJournal(log) && k in Fold(account, log).state.reservations
    ensures
      var s := Fold(account, log).state;
      var r := s.reservations[k];
      && FactsCover(r.facts)
      && 0.0 <= r.remaining <= r.facts.amount
      && 0.0 <= r.remaining3x <= r.facts.reserved3x
      && (r.remaining >= OpenLoss(r.facts, r.reconciledFilled)
          || (Released(r) && TerminallyReconciled(account, log, k)))
      && (forall a :: a in s.attempts && s.attempts[a].preparation.order == k ==>
            CoveredOrOvertaken(account, log, k, a))
      && (forall a :: OnlyAttemptForOrder(s, a) && s.attempts[a].preparation.order == k ==>
            !Overtaken(account, log, k, a, s.attempts[a].filled))
  {
    hide StateCoherent, RiskAccounted, HasTerminalAttempt, FactsCover, OpenLoss, AdmittedJournal, Fold, Working;
    hide Released, Overtaken, CoveredOrOvertaken;
    var s := Fold(account, log).state;
    JournalStaysAccounted(account, log);
    FoldIsCoherent(account, log);
    AccountedReservationBounds(s, k);
    WorkingUntilReleased(account, log, k);
    forall a | a in s.attempts && s.attempts[a].preparation.order == k
      ensures CoveredOrOvertaken(account, log, k, a)
    {
      AttemptIsCoveredOrOvertaken(account, log, k, a);
    }
    forall a | OnlyAttemptForOrder(s, a) && s.attempts[a].preparation.order == k
      ensures !Overtaken(account, log, k, a, s.attempts[a].filled)
    {
      OnlyAttemptIsNotOvertaken(account, log, k, a);
    }
  }

  lemma AccountedReservationBounds(s: State, k: OrderDigest)
    requires StateCoherent(s) && RiskAccounted(s) && k in s.reservations
    ensures
      var r := s.reservations[k];
      && FactsCover(r.facts)
      && 0.0 <= r.remaining <= r.facts.amount
      && 0.0 <= r.remaining3x <= r.facts.reserved3x
      && r.facts.quantity != 0.0
      && (Working(r) ==> r.remaining >= OpenLoss(r.facts, r.reconciledFilled))
  {
    var r := s.reservations[k];
    assert ReservationAccounted(s, k);
    if Working(r) {
      WorkingRiskShrinks(r.facts, 0.0, 0.0, r.reconciledFilled, r.actualFee);
      WorkingRiskCoversUnfilled(r.facts, r.reconciledFilled, r.actualFee);
    }
  }

  // ----- Freshness -----

  /** Nothing has been taken out of the reservation yet. */
  predicate Whole(r: Reservation) {
    r == Reservation(r.facts, r.facts.amount, r.facts.reserved3x, 0.0, 0.0)
  }

  predicate WholeOrOutdated(s: State, k: OrderDigest)
    requires k in s.reservations
  {
    Whole(s.reservations[k]) ||
    (s.equity.Some? && s.equity.value.valuationAt > s.reservations[k].facts.valuationAt)
  }

  lemma EventKeepsWholeOrOutdated(s: State, account: Id, e: Event, k: OrderDigest)
    requires StateCoherent(s) && Apply(s, account, e).Some? && k in Apply(s, account, e).value.reservations
    requires k in s.reservations ==> WholeOrOutdated(s, k)
    ensures WholeOrOutdated(Apply(s, account, e).value, k)
  {
    hide WorkingRisk, Working3x, StateCoherent;
    if k in s.reservations {
      OnlyReconcileChangesReservation(s, account, e, k);
      OnlyEquityEventsMoveEquity(s, account, e);
    }
  }

  lemma {:induction false} ReservationIsWholeOrOutdated(account: Id, log: seq<Event>, k: OrderDigest)
    requires k in Fold(account, log).state.reservations
    ensures WholeOrOutdated(Fold(account, log).state, k)
    decreases |log|
  {
    hide Apply, WholeOrOutdated;
    var n := |log| - 1;
    var before := Fold(account, log[..n]);
    if k in before.state.reservations {
      ReservationIsWholeOrOutdated(account, log[..n], k);
    }
    if before.readable && Apply(before.state, account, log[n]).Some? {
      FoldIsCoherent(account, log[..n]);
      EventKeepsWholeOrOutdated(before.state, account, log[n], k);
    }
  }

  /**
   * What reserve and dispatch call a fresh reservation, one that names the current snapshot, is a reservation
   * from which nothing has been released: reconciling takes a newer snapshot, and snapshots never go back.
   */
  lemma FreshReservationIsWhole(account: Id, log: seq<Event>, k: OrderDigest)
    requires ReservationFresh(Fold(account, log).state, k)
    ensures Whole(Fold(account, log).state.reservations[k])
  {
    ReservationIsWholeOrOutdated(account, log, k);
  }

  // ----- Committed risk -----

  /** Risk already in positions plus everything still reserved. */
  ghost function Committed(s: State): real {
    s.positionRisk + ReservedRisk(s)
  }

  lemma ReservedAfterWrite(s: State, t: State, k: OrderDigest, r: Reservation)
    requires t.reservations == s.reservations[k := r]
    ensures ReservedRisk(t)
        == ReservedRisk(s) + r.remaining - (if k in s.reservations then s.reservations[k].remaining else 0.0)
    ensures Reserved3x(t)
        == Reserved3x(s) + r.remaining3x - (if k in s.reservations then s.reservations[k].remaining3x else 0.0)
  {
    var m := map j | j in s.reservations :: s.reservations[j].remaining;
    var n := map j | j in s.reservations :: s.reservations[j].remaining3x;
    MapSumWrite(m, k, r.remaining);
    MapSumWrite(n, k, r.remaining3x);
    assert (map j | j in t.reservations :: t.reservations[j].remaining) == m[k := r.remaining];
    assert (map j | j in t.reservations :: t.reservations[j].remaining3x) == n[k := r.remaining3x];
  }

  lemma SameReservationsSameSums(s: State, t: State)
    requires s.reservations == t.reservations
    ensures ReservedRisk(s) == ReservedRisk(t) && Reserved3x(s) == Reserved3x(t)
  {
    assert (map j | j in t.reservations :: t.reservations[j].remaining)
        == (map j | j in s.reservations :: s.reservations[j].remaining);
    assert (map j | j in t.reservations :: t.reservations[j].remaining3x)
        == (map j | j in s.reservations :: s.reservations[j].remaining3x);
  }

  /** The exposure cap for leveraged products that the snapshot's own envelope grants. */
  function LeverageCap(q: Equity): real {
    if q.peak <= 0.0 then 0.0
    else EvaluateEnvelope(q.protectedEquity, Some(DrawdownFrom(q.equity, q.peak))).max3xWeight * q.equity
  }

  /** The limits one reservation was admitted under. */
  predicate WithinLimits(r: RiskRequest, q: Equity, committed: real, reserved3x: real) {
    && committed <= r.policy.totalLimit
    && committed + r.floor + r.costBuffer <= q.equity
    && (r.factor == 3.0 ==> q.position3x + q.pending3x + reserved3x <= LeverageCap(q))
  }

  /** What the admission test has established when it lets a reservation through. */
  lemma AdmissionFacts(c: Config, s: State, r: RiskRequest, reservedRisk: real, reserved3x: real)
    requires DecideAccountRisk(c, s, r, reservedRisk, reserved3x).Some?
    ensures
      var d := DecideAccountRisk(c, s, r, reservedRisk, reserved3x).value;
      && d.RiskReserved? && d.facts.order !in s.reservations && d.facts.amount == r.amount > 0.0
      && d.facts.reserved3x == (if r.factor == 3.0 then r.order.quantity * r.unitPrice else 0.0)
      && r.amount <= r.fraction * s.equity.value.balance
      && WithinLimits(r, s.equity.value, s.positionRisk + reservedRisk + r.amount, reserved3x + d.facts.reserved3x)
  {
    var q := s.equity.value;
    var existing := s.positionRisk + reservedRisk;
    BudgetAdmitsExactly(q.balance, q.equity, r.floor, existing, r.costBuffer, r.fraction, r.amount);
  }

  /**
   * Admission keeps the account within its limits: after the reservation everything committed stays within
   * the policy's total, leaves the floor and the cost buffer untouched, and a leveraged product stays under
   * the envelope's exposure cap together with what is held, pending and reserved.
   */
  lemma ReservationKeepsLimits(c: Config, s: State, r: RiskRequest)
    requires StateCoherent(s) && Decide(c, s, ReserveRisk(r)).Some?
    ensures
      var d := Decide(c, s, ReserveRisk(r)).value;
      && d.RiskReserved? && ApplyReservation(s, d.facts).Some?
      && var t := ApplyReservation(s, d.facts).value;
      && Committed(t) == Committed(s) + r.amount
      && r.amount <= r.fraction * s.equity.value.balance
      && WithinLimits(r, s.equity.value, Committed(t), Reserved3x(t))
  {
    AdmissionFacts(c, s, r, ReservedRisk(s), Reserved3x(s));
    RiskEventReplays(c, s, r, ReservedRisk(s), Reserved3x(s));
    hide DecideAccountRisk, LeverageCap;
    var f := Decide(c, s, ReserveRisk(r)).value.facts;
    var t := ApplyReservation(s, f).value;
    ReservedAfterWrite(s, t, f.order, t.reservations[f.order]);
  }

  lemma ReservedSumsNonNegative(s: State)
    requires StateCoherent(s) && RiskAccounted(s)
    ensures ReservedRisk(s) >= 0.0 && Reserved3x(s) >= 0.0
  {
    hide StateCoherent, RiskAccounted, HasTerminalAttempt, FactsCover, OpenLoss;
    forall k | k in s.reservations
      ensures s.reservations[k].remaining >= 0.0 && s.reservations[k].remaining3x >= 0.0
    {
      AccountedReservationBounds(s, k);
    }
    MapSumNonNegative(map k | k in s.reservations :: s.reservations[k].remaining);
    MapSumNonNegative(map k | k in s.reservations :: s.reservations[k].remaining3x);
  }

  /** What the envelope has granted when a leveraged reservation is let through. */
  lemma LeverageFacts(c: Config, s: State, r: RiskRequest, reservedRisk: real, reserved3x: real)
    requires DecideAccountRisk(c, s, r, reservedRisk, reserved3x).Some? && r.factor == 3.0 && reserved3x >= 0.0
    ensures
      var q := s.equity.value;
      var band := ResolveBand(q.protectedEquity);
      && q.protectedEquity >= 0.0 && q.peak > 0.0
      && DrawdownFrom(q.equity, q.peak) < band.brake && (band.needsApproval ==> r.approved)
      && r.order.quantity > 0.0 && r.unitPrice > 0.0
      && 0.0 < q.position3x + q.pending3x + r.order.quantity * r.unitPrice <= band.max3xWeight * q.equity
  {
    hide MaximumRiskQuantity, AvailableNewRiskBudget, SnapshotMatches, PolicyMatches, StepAligned, DrawdownFrom;
    ProductPositive(r.order.quantity, r.unitPrice);
  }

  /**
   * A leveraged reservation is only ever admitted before the drawdown brake of the account's band, on an
   * account whose highest equity is at most a million, and from fifty thousand on with an explicit approval.
   */
  lemma LeveragedAdmissionIsRestricted(c: Config, log: seq<Event>, r: RiskRequest)
    requires AdmittedJournal(log) && r.factor == 3.0
    requires Decide(c, Fold(c.account, log).state, ReserveRisk(r)).Some?
    ensures
      var q := Fold(c.account, log).state.equity.value;
      && q.protectedEquity <= 1000000.0 && (q.protectedEquity >= 50000.0 ==> r.approved)
      && q.peak > 0.0 && DrawdownFrom(q.equity, q.peak) < ResolveBand(q.protectedEquity).brake
  {
    hide Fold, AdmittedJournal, RiskAccounted, StateCoherent, DecideAccountRisk;
    var s := Fold(c.account, log).state;
    JournalStaysAccounted(c.account, log);
    FoldIsCoherent(c.account, log);
    ReservedSumsNonNegative(s);
    LeverageFacts(c, s, r, ReservedRisk(s), Reserved3x(s));
  }

  /** Some risk is left to reserve at these fills and fees: open units with a loss, or an unspent part of the fee. */
  predicate LeavesRisk(f: RiskFacts, filled: real, fee: real) {
    (filled < f.quantity && f.fee < f.amount) || fee < f.fee
  }

  lemma LeavesRiskExactly(f: RiskFacts, filled: real, fee: real)
    requires f.quantity > 0.0 && 0.0 <= filled <= f.quantity && 0.0 <= f.fee <= f.amount && f.reserved3x >= 0.0
    ensures WorkingRisk(f, filled, fee) > 0.0 <==> LeavesRisk(f, filled, fee)
    ensures Working3x(f, filled) > 0.0 <==> filled < f.quantity && f.reserved3x > 0.0
  {
    var x := 1.0 - filled / f.quantity;
    ShareLeft(f.quantity, filled, filled);
    SharePositive(f.quantity, x, filled);
    PositiveExactly(f.amount - f.fee, x);
    PositiveExactly(f.reserved3x, x);
  }

  lemma SharePositive(quantity: real, x: real, filled: real)
    requires quantity > 0.0 && quantity * x == quantity - filled && x >= 0.0
    ensures x > 0.0 <==> filled < quantity
  {
    PositiveExactly(quantity, x);
  }

  lemma PositiveExactly(a: real, b: real)
    requires a >= 0.0 && b >= 0.0
    ensures a * b >= 0.0
    ensures a * b > 0.0 <==> a > 0.0 && b > 0.0
  {
    if a > 0.0 && b > 0.0 {
      ProductPositive(a, b);
    }
  }

  /** A reconciliation changes one entry and leaves the position risk, which the snapshot already carries. */
  lemma ReconcileSums(s: State, d: Data)
    requires d.RiskReconciled? && StateCoherent(s) && ApplyReconcile(s, d).Some?
    ensures
      var k := s.attempts[d.attempt].preparation.order;
      var t := ApplyReconcile(s, d).value;
      && k in s.reservations && k in t.reservations
      && Committed(t) - Committed(s) == t.reservations[k].remaining - s.reservations[k].remaining
      && Reserved3x(t) - Reserved3x(s) == t.reservations[k].remaining3x - s.reservations[k].remaining3x
  {
    hide WorkingRisk, Working3x;
    var k := s.attempts[d.attempt].preparation.order;
    var t := ApplyReconcile(s, d).value;
    ReservedAfterWrite(s, t, k, t.reservations[k]);
  }

  /** What the working formula makes of an accounted entry: lower, unless the entry had been released. */
  lemma ReconciledEntry(s: State, d: Data)
    requires d.RiskReconciled? && StateCoherent(s) && RiskAccounted(s) && ApplyReconcile(s, d).Some?
    ensures
      var a := s.attempts[d.attempt];
      var r := s.reservations[a.preparation.order];
      var r' := ApplyReconcile(s, d).value.reservations[a.preparation.order];
      && (r'.remaining > r.remaining <==>
          a.certainty == KNOWN_PENDING && r.remaining == 0.0 && LeavesRisk(r.facts, d.filled, d.fee))
      && (r'.remaining3x > r.remaining3x <==>
            a.certainty == KNOWN_PENDING && r.remaining3x == 0.0 && d.filled < r.facts.quantity
                && r.facts.reserved3x > 0.0)
      && (r'.remaining > r.remaining || r'.remaining3x > r.remaining3x ==> HasTerminalAttempt(s, a.preparation.order))
  {
    var a := s.attempts[d.attempt];
    var r := s.reservations[a.preparation.order];
    assert AttemptCoherent(a) && ReservationAccounted(s, a.preparation.order);
    LeavesRiskExactly(r.facts, d.filled, d.fee);
    WorkingRiskShrinks(r.facts, 0.0, 0.0, r.reconciledFilled, r.actualFee);
    WorkingRiskShrinks(r.facts, r.reconciledFilled, r.actualFee, d.filled, d.fee);
    hide WorkingRisk, Working3x, LeavesRisk;
  }

  /**
   * Exactly when a reconciliation raises what the account has committed, and exactly when it raises the reserved
   * leveraged exposure: the attempt is still pending, nothing of the kind is reserved for its order, and the
   * facts about to be recorded leave some: open units, or for the risk an unspent part of the fee.
   */
  lemma ReconcileRaisesExactly(s: State, d: Data)
    requires d.RiskReconciled? && StateCoherent(s) && RiskAccounted(s) && ApplyReconcile(s, d).Some?
    ensures
      var a := s.attempts[d.attempt];
      var r := s.reservations[a.preparation.order];
      var t := ApplyReconcile(s, d).value;
      && (Committed(t) > Committed(s) <==>
            a.certainty == KNOWN_PENDING && r.remaining == 0.0 && LeavesRisk(r.facts, d.filled, d.fee))
      && (Reserved3x(t) > Reserved3x(s) <==>
            a.certainty == KNOWN_PENDING && r.remaining3x == 0.0 && d.filled < r.facts.quantity
                && r.facts.reserved3x > 0.0)
      && (Committed(t) > Committed(s) || Reserved3x(t) > Reserved3x(s) ==> HasTerminalAttempt(s, a.preparation.order))
  {
    hide StateCoherent, RiskAccounted, LeavesRisk, Committed, Reserved3x;
    ReconciledEntry(s, d);
    ReconcileSums(s, d);
  }

  /** The working amount times the quantity, without the division. */
  function CoverLeft(f: RiskFacts, filled: real, fee: real): real {
    (f.amount - f.fee) * (f.quantity - filled) + Max(0.0, f.fee - fee) * f.quantity
  }

  lemma CoverLeftIsWorkingRisk(f: RiskFacts, filled: real, fee: real)
    requires f.quantity > 0.0 && 0.0 <= filled <= f.quantity
    ensures IsMultiple(CoverLeft(f, filled, fee), f.quantity, WorkingRisk(f, filled, fee))
  {
    var x, net, left := 1.0 - filled / f.quantity, f.amount - f.fee, Max(0.0, f.fee - fee);
    ShareLeft(f.quantity, filled, filled);
    assert net * (f.quantity * x) == f.quantity * (net * x);
    assert f.quantity * (net * x + left) == f.quantity * (net * x) + f.quantity * left;
  }

  lemma ProductIsMultiple(c: real, x: real)
    ensures IsMultiple(x * c, c, x)
  {
  }

  /**
   * Exactly when a reconciliation leaves an attempt of the same order covered, in facts known before the call: if
   * the reconciled attempt is terminal, when the attempt has no open loss, and otherwise when the share of the
   * amount and fee that stays reserved is enough for its open units.
   */
  lemma ReconcileKeepsCoverExactly(s: State, d: Data, a: Id)
    requires d.RiskReconciled? && StateCoherent(s) && RiskAccounted(s) && ApplyReconcile(s, d).Some?
    requires a in s.attempts && s.attempts[a].preparation.order == s.attempts[d.attempt].preparation.order
    ensures
      var b := s.attempts[d.attempt];
      var f := s.reservations[b.preparation.order].facts;
      var loss := OpenLoss(f, s.attempts[a].filled);
      ApplyReconcile(s, d).value.reservations[b.preparation.order].remaining >= loss <==>
        if b.certainty == TERMINAL then loss == 0.0
        else CoverLeft(f, d.filled, d.fee) >= loss * f.quantity
  {
    hide StateCoherent, RiskAccounted, WorkingRisk, Working3x, IsMultiple, CoverLeft, OpenLoss;
    ReconcileRanges(s, d, a);
    ReconciledRemaining(s, d);
    hide ApplyReconcile;
    var b := s.attempts[d.attempt];
    var f := s.reservations[b.preparation.order].facts;
    var loss := OpenLoss(f, s.attempts[a].filled);
    OpenLossNonNegative(f, s.attempts[a].filled);
    CoverLeftIsWorkingRisk(f, d.filled, d.fee);
    ProductIsMultiple(f.quantity, loss);
    var working := WorkingRisk(f, d.filled, d.fee);
    MultiplesCompare(loss * f.quantity, CoverLeft(f, d.filled, d.fee), f.quantity, loss, working);
  }

  lemma ReconcileRanges(s: State, d: Data, a: Id)
    requires d.RiskReconciled? && StateCoherent(s) && RiskAccounted(s) && ApplyReconcile(s, d).Some?
    requires a in s.attempts && s.attempts[a].preparation.order == s.attempts[d.attempt].preparation.order
    ensures
      var f := s.reservations[s.attempts[d.attempt].preparation.order].facts;
      f.quantity > 0.0 && f.lossPerUnit >= 0.0 && 0.0 <= d.filled <= f.quantity && s.attempts[a].filled <= f.quantity
  {
    hide WorkingRisk, Working3x;
    var b := s.attempts[d.attempt];
    assert AttemptCoherent(b) && AttemptCoherent(s.attempts[a]) && ReservationAccounted(s, b.preparation.order);
  }

  lemma ReconciledRemaining(s: State, d: Data)
    requires d.RiskReconciled? && ApplyReconcile(s, d).Some?
    ensures
      var b := s.attempts[d.attempt];
      var f := s.reservations[b.preparation.order].facts;
      && f.quantity != 0.0 && (b.certainty == TERMINAL || b.certainty == KNOWN_PENDING)
      && b.preparation.order in ApplyReconcile(s, d).value.reservations
      && ApplyReconcile(s, d).value.reservations[b.preparation.order].remaining
         == if b.certainty == TERMINAL then 0.0 else WorkingRisk(f, d.filled, d.fee)
  {
    hide WorkingRisk, Working3x;
  }

  lemma OpenLossNonNegative(f: RiskFacts, filled: real)
    requires f.lossPerUnit >= 0.0 && filled <= f.quantity
    ensures OpenLoss(f, filled) >= 0.0
  {
    ScaleKeepsOrder(f.lossPerUnit, 0.0, f.quantity - filled);
  }

  /** An event that neither reserves nor observes equity, so it can only spend or release what is committed. */
  predicate Quiet(d: Data) {
    !d.RiskReserved? && !d.EquityObserved?
  }

  ghost predicate OneAttemptPerOrder(s: State) {
    forall a, b {:trigger s.attempts[a], s.attempts[b]} ::
      a in s.attempts && b in s.attempts && s.attempts[a].preparation.order == s.attempts[b].preparation.order ==>
          a == b
  }

  lemma QuietEventNeverRaises(s: State, account: Id, e: Event)
    requires StateCoherent(s) && RiskAccounted(s) && OneAttemptPerOrder(s)
    requires Quiet(e.data) && Apply(s, account, e).Some?
    ensures var t := Apply(s, account, e).value;
            t.positionRisk == s.positionRisk && ReservedRisk(t) <= ReservedRisk(s) && Reserved3x(t) <= Reserved3x(s)
  {
    var t := Apply(s, account, e).value;
    if e.data.RiskReconciled? {
      var d := e.data;
      var a := s.attempts[d.attempt];
      var k := a.preparation.order;
      var r := s.reservations[k];
      assert AttemptCoherent(a) && ReservationAccounted(s, k);
      if a.certainty == KNOWN_PENDING {
        assert Working(r);
        WorkingRiskShrinks(r.facts, r.reconciledFilled, r.actualFee, d.filled, d.fee);
      } else if Working(r) {
        WorkingRiskShrinks(r.facts, r.reconciledFilled, r.actualFee, r.reconciledFilled, r.actualFee);
      }
      ReservedAfterWrite(s, t, k, t.reservations[k]);
    } else {
      assert t.reservations == s.reservations;
    }
  }

  /**
   * Committed risk stays bounded along runs: whatever is prepared, observed or reconciled before the next
   * equity observation or reservation, neither committed risk nor reserved leveraged exposure grows,
   * provided every order has one attempt.
   */
  lemma {:induction false} QuietRunNeverRaisesCommitted(account: Id, log: seq<Event>, longer: seq<Event>)
    requires log <= longer && AdmittedJournal(longer)
    requires forall i :: |log| <= i < |longer| ==> Quiet(longer[i].data)
    requires OneAttemptPerOrder(Fold(account, longer).state)
    ensures Committed(Fold(account, longer).state) <= Committed(Fold(account, log).state)
    ensures Reserved3x(Fold(account, longer).state) <= Reserved3x(Fold(account, log).state)
    decreases |longer|
  {
    hide Apply;
    if |log| == |longer| {
      assert log == longer;
    } else {
      var n := |longer| - 1;
      var shorter := longer[..n];
      FoldEvolves(account, shorter, longer);
      EarlierHasOneAttemptPerOrder(Fold(account, shorter).state, Fold(account, longer).state);
      QuietRunNeverRaisesCommitted(account, log, shorter);
      var before := Fold(account, shorter);
      if before.readable && Apply(before.state, account, longer[n]).Some? {
        JournalStaysAccounted(account, shorter);
        FoldIsCoherent(account, shorter);
        QuietEventNeverRaises(before.state, account, longer[n]);
      }
    }
  }

  lemma EarlierHasOneAttemptPerOrder(s: State, t: State)
    requires Evolves(s, t) && OneAttemptPerOrder(t)
    ensures OneAttemptPerOrder(s)
  {
    forall a, b | a in s.attempts && b in s.attempts
        && s.attempts[a].preparation.order == s.attempts[b].preparation.order
      ensures a == b
    {
      assert Advances(s.attempts[a], t.attempts[a]) && Advances(s.attempts[b], t.attempts[b]);
    }
  }

  /** Both halves together: from an admitted reservation on, quiet runs stay within the limits it was admitted under. */
  lemma ReservedRunStaysWithinLimits(c: Config, log: seq<Event>, r: RiskRequest, longer: seq<Event>)
    requires Fold(c.account, log).readable && Decide(c, Fold(c.account, log).state, ReserveRisk(r)).Some?
    requires var s := Fold(c.account, log).state;
             log + [Seal(s, c.account, Decide(c, s, ReserveRisk(r)).value)] <= longer
    requires AdmittedJournal(longer)
    requires forall i :: |log| < i < |longer| ==> Quiet(longer[i].data)
    requires OneAttemptPerOrder(Fold(c.account, longer).state)
    ensures
      var q := Fold(c.account, log).state.equity.value;
      var t := Fold(c.account, longer).state;
      && WithinLimits(r, q, Committed(t), Reserved3x(t))
  {
    hide Decide, Fold, LeverageCap, Apply, AdmittedJournal, StateCoherent;
    var s := Fold(c.account, log).state;
    FoldIsCoherent(c.account, log);
    ReservationKeepsLimits(c, s, r);
    ReservationIsFolded(c, log, Decide(c, s, ReserveRisk(r)).value.facts);
    QuietRunNeverRaisesCommitted(c.account, log + [Seal(s, c.account, Decide(c, s, ReserveRisk(r)).value)], longer);
  }

  lemma ReservationIsFolded(c: Config, log: seq<Event>, f: RiskFacts)
    requires Fold(c.account, log).readable && ApplyReservation(Fold(c.account, log).state, f).Some?
    ensures
      var s := Fold(c.account, log).state;
      var t := Fold(c.account, log + [Seal(s, c.account, RiskReserved(f))]).state;
      && Committed(t) == Committed(ApplyReservation(s, f).value)
      && Reserved3x(t) == Reserved3x(ApplyReservation(s, f).value)
  {
    var s := Fold(c.account, log).state;
    var e := Seal(s, c.account, RiskReserved(f));
    assert (log + [e])[..|log|] == log;
    SameReservationsSameSums(Fold(c.account, log + [e]).state, ApplyReservation(s, f).value);
  }
}
