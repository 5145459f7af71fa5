/**
 * Why a reservation covers the open units of an attempt only as long as no other attempt of the order is
 * reconciled ahead of it: a reduction that has sold one of two units takes its share out of the reservation of a
 * live order with the same content, whether that order is pending or its fate is unknown.
 */
module CoverLost {
  import opened Prelude
  import opened CapitalEnvelope
  import opened RiskBudget
  import opened Journal
  import opened Writers
  import opened RiskAccounting
  import opened WrittenJournals

  /** The reduction sells one of its two units, and then is cancelled or goes on working. */
  function Sold(cancelled: bool): Report {
    Report(if cancelled then Cancelled else PartiallyFilled, Some(5), 1.0, Some(3.0), false)
  }

  /** The live order is acknowledged, or the broker answers with a status nobody knows. */
  function Live(unknown: bool): Report {
    Report(if unknown then Other(9) else Submitted, Some(6), 0.0, None, false)
  }

  const AGAIN := REQUEST.(snapshot := SnapshotOf(22, 5000.0, 300))
  const LATER := FACTS.(valuationAt := 300, source := 22)

  /** The last snapshot has one unit left and covers the one that was sold. */
  const COVERING := SnapshotOf(23, 5000.0, 400).(positions := map[1 := 1.0], coveredFills := map[1 := 0.0, 2 := 1.0])
  const COVERED := RecordedAs(23, 5000.0, 400).(positions := map[1 := 1.0], coveredFills := map[1 := 0.0, 2 := 1.0])

  /**
   * An account past its brake sells one of two units in a reduction and recovers. The same order is then reserved
   * and submitted by another intent, and a newer snapshot lets the reduction be reconciled.
   */
  function Story(cancelled: bool, unknown: bool): (es: seq<Entry>)
    ensures |es| == 11
  {
    [Entry(At(11, 100), Bind(ORDER, true)),
     Entry(At(11, 100), RecordEquity(SnapshotOf(20, 5000.0, 100), 0.0, true)),
     Entry(At(13, 200), RecordEquity(SnapshotOf(21, 4000.0, 200), 0.0, false)),
     Entry(At(13, 200), ReserveReduction(ORDER, true, 2, 32)),
     Entry(At(13, 200), RecordObservation(2, Sold(cancelled), None)),
     Entry(At(11, 300), RecordEquity(SnapshotOf(22, 5000.0, 300), 0.0, false)),
     Entry(At(11, 300), ReserveRisk(AGAIN)),
     Entry(At(11, 300), ReserveOrder(ORDER, false, 1, 31)),
     Entry(At(11, 300), RecordObservation(1, Live(unknown), None)),
     Entry(At(11, 400), RecordEquity(COVERING, 0.0, false)),
     Entry(At(11, 400), ReconcileRisk(2, 1.0, 0.0, 0.0, 23))]
  }

  // ----- Stage by stage -----

  predicate Account(s: State, equity: Equity) {
    s.equity == Some(equity) && s.binding == Some(BindingOf(DOMAIN)) && !s.breakerOpen && s.positionRisk == 0.0
  }

  predicate Reserved(s: State, remaining: real, filled: real) {
    s.reservations == map[KEY := Reservation(LATER, remaining, 0.0, filled, 0.0)]
  }

  /** Attempt `id` of the order, by this intent, in this stage and with this much filled. */
  predicate Stands(s: State, id: Id, intent: Id, certainty: Certainty, filled: real) {
    && id in s.attempts && s.attempts[id].certainty == certainty && s.attempts[id].filled == filled
    && s.attempts[id].preparation.intent == intent && s.attempts[id].preparation.order == KEY
    && s.attempts[id].preparation.quantity == 2.0 && (s.attempts[id].preparation.purpose.Reduction? <==> id == 2)
    && (certainty == PREPARED ==> s.attempts[id].observation.None?)
  }

  function SoldStage(cancelled: bool): Certainty {
    if cancelled then TERMINAL else KNOWN_PENDING
  }

  function LiveStage(unknown: bool): Certainty {
    if unknown then UNKNOWN else KNOWN_PENDING
  }

  lemma AccountIsOpened(cancelled: bool, unknown: bool) returns (s: State)
    ensures Reaches(ACCOUNT, Story(cancelled, unknown)[..2], s)
    ensures Account(s, RecordedAs(20, 5000.0, 100)) && s.attempts == map[] && s.reservations == map[]
  {
    var es := Story(cancelled, unknown);
    assert es[..0] == [] && es[0] == Opening()[0] && es[1] == Opening()[1];
    ReachesStart(ACCOUNT);
    DomainIsBound();
    var t := Taken(EMPTY_STATE, es[0]).value;
    EquityIsRecorded(t);
    s := Taken(t, es[1]).value;
    hide Taken, Reaches;
    ReachesNext(ACCOUNT, es, 0, EMPTY_STATE);
    ReachesNext(ACCOUNT, es, 1, t);
  }

  lemma LossIsRecorded(s: State, cancelled: bool, unknown: bool)
    requires Account(s, RecordedAs(20, 5000.0, 100)) && s.attempts == map[] && s.reservations == map[]
    ensures Taken(s, Story(cancelled, unknown)[2]).Some?
    ensures var t := Taken(s, Story(cancelled, unknown)[2]).value;
            Account(t, RecordedAs(21, 4000.0, 200)) && t.attempts == map[] && t.reservations == map[]
  {
  }

  lemma ReductionIsPrepared(s: State, cancelled: bool, unknown: bool)
    requires Account(s, RecordedAs(21, 4000.0, 200)) && s.attempts == map[] && s.reservations == map[]
    ensures Taken(s, Story(cancelled, unknown)[3]).Some?
    ensures var t := Taken(s, Story(cancelled, unknown)[3]).value;
            && Account(t, RecordedAs(21, 4000.0, 200)) && t.reservations == map[]
            && t.attempts.Keys == {2} && Stands(t, 2, 13, PREPARED, 0.0)
  {
    assert DrawdownFrom(4000.0, 5000.0) == 0.2;
    hide DrawdownFrom;
  }

  lemma ReductionSellsOne(s: State, cancelled: bool, unknown: bool)
    requires Account(s, RecordedAs(21, 4000.0, 200)) && s.reservations == map[]
    requires s.attempts.Keys == {2} && Stands(s, 2, 13, PREPARED, 0.0)
    ensures Taken(s, Story(cancelled, unknown)[4]).Some?
    ensures var t := Taken(s, Story(cancelled, unknown)[4]).value;
            && Account(t, RecordedAs(21, 4000.0, 200)) && t.reservations == map[]
            && t.attempts.Keys == {2} && Stands(t, 2, 13, SoldStage(cancelled), 1.0)
  {
  }

  lemma AccountRecovers(s: State, cancelled: bool, unknown: bool)
    requires Account(s, RecordedAs(21, 4000.0, 200)) && s.reservations == map[]
    requires s.attempts.Keys == {2} && Stands(s, 2, 13, SoldStage(cancelled), 1.0)
    ensures Taken(s, Story(cancelled, unknown)[5]).Some?
    ensures var t := Taken(s, Story(cancelled, unknown)[5]).value;
            && Account(t, RecordedAs(22, 5000.0, 300)) && t.reservations == map[]
            && t.attempts.Keys == {2} && Stands(t, 2, 13, SoldStage(cancelled), 1.0)
  {
  }

  lemma OrderIsReserved(s: State, cancelled: bool, unknown: bool)
    requires Account(s, RecordedAs(22, 5000.0, 300)) && s.reservations == map[]
    requires s.attempts.Keys == {2} && Stands(s, 2, 13, SoldStage(cancelled), 1.0)
    ensures Taken(s, Story(cancelled, unknown)[6]).Some?
    ensures var t := Taken(s, Story(cancelled, unknown)[6]).value;
            && Account(t, RecordedAs(22, 5000.0, 300)) && Reserved(t, 10.0, 0.0)
            && t.attempts.Keys == {2} && Stands(t, 2, 13, SoldStage(cancelled), 1.0)
  {
    NothingReserved(s);
    assert MaximumRiskQuantity(10.0, 4.0, 1.0, 1.0) == Some(2.0);
    assert StepAligned(2.0, 1.0);
    assert DrawdownFrom(5000.0, 5000.0) == 0.0;
    hide MaximumRiskQuantity, StepAligned, DrawdownFrom, MapSum;
    assert DecideAccountRisk(At(11, 300), s, AGAIN, 0.0, 0.0) == Some(RiskReserved(LATER));
  }

  lemma OrderIsPrepared(s: State, cancelled: bool, unknown: bool)
    requires Account(s, RecordedAs(22, 5000.0, 300)) && Reserved(s, 10.0, 0.0)
    requires s.attempts.Keys == {2} && Stands(s, 2, 13, SoldStage(cancelled), 1.0)
    ensures Taken(s, Story(cancelled, unknown)[7]).Some?
    ensures var t := Taken(s, Story(cancelled, unknown)[7]).value;
            && Account(t, RecordedAs(22, 5000.0, 300)) && Reserved(t, 10.0, 0.0)
            && Stands(t, 2, 13, SoldStage(cancelled), 1.0) && Stands(t, 1, 11, PREPARED, 0.0)
  {
  }

  lemma OrderIsLive(s: State, cancelled: bool, unknown: bool)
    requires Account(s, RecordedAs(22, 5000.0, 300)) && Reserved(s, 10.0, 0.0)
    requires Stands(s, 2, 13, SoldStage(cancelled), 1.0) && Stands(s, 1, 11, PREPARED, 0.0)
    ensures Taken(s, Story(cancelled, unknown)[8]).Some?
    ensures var t := Taken(s, Story(cancelled, unknown)[8]).value;
            && Account(t, RecordedAs(22, 5000.0, 300)) && Reserved(t, 10.0, 0.0)
            && Stands(t, 2, 13, SoldStage(cancelled), 1.0) && Stands(t, 1, 11, LiveStage(unknown), 0.0)
  {
  }

  lemma SaleIsCovered(s: State, cancelled: bool, unknown: bool)
    requires Account(s, RecordedAs(22, 5000.0, 300)) && Reserved(s, 10.0, 0.0)
    requires Stands(s, 2, 13, SoldStage(cancelled), 1.0) && Stands(s, 1, 11, LiveStage(unknown), 0.0)
    ensures Taken(s, Story(cancelled, unknown)[9]).Some?
    ensures var t := Taken(s, Story(cancelled, unknown)[9]).value;
            && Account(t, COVERED) && Reserved(t, 10.0, 0.0)
            && Stands(t, 2, 13, SoldStage(cancelled), 1.0) && Stands(t, 1, 11, LiveStage(unknown), 0.0)
  {
  }

  /** What the reconciliation of the reduction leaves reserved for the live order. */
  function Left(cancelled: bool): real {
    if cancelled then 0.0 else 5.5
  }

  lemma ReductionIsReconciled(s: State, cancelled: bool, unknown: bool)
    requires Account(s, COVERED) && Reserved(s, 10.0, 0.0)
    requires Stands(s, 2, 13, SoldStage(cancelled), 1.0) && Stands(s, 1, 11, LiveStage(unknown), 0.0)
    ensures Taken(s, Story(cancelled, unknown)[10]).Some?
    ensures var t := Taken(s, Story(cancelled, unknown)[10]).value;
            && Account(t, COVERED) && Reserved(t, Left(cancelled), 1.0)
            && Stands(t, 2, 13, SoldStage(cancelled), 1.0) && Stands(t, 1, 11, LiveStage(unknown), 0.0)
  {
    hide ApplyReconcile, ReconcileFactsAgree, Left, Story, BoundAndVerified, Taken, SoldStage, LiveStage;
    ReconciliationAgrees(s, cancelled, unknown);
    ReconciliationLeaves(s, cancelled, unknown);
    LastEntry(s, cancelled, unknown);
    ReconciliationIsTaken(s, Story(cancelled, unknown)[10], RiskReconciled(2, 1.0, 0.0, 0.0, 23));
  }

  lemma LastEntry(s: State, cancelled: bool, unknown: bool)
    requires Account(s, COVERED)
    ensures var entry := Story(cancelled, unknown)[10];
            entry.call == ReconcileRisk(2, 1.0, 0.0, 0.0, 23) && BoundAndVerified(entry.config, s)
  {
  }

  lemma ReconciliationIsTaken(s: State, entry: Entry, d: Data)
    requires d.RiskReconciled? && ApplyReconcile(s, d).Some? && BoundAndVerified(entry.config, s)
    requires ReconcileFactsAgree(s, d.attempt, d.filled, d.fee, d.positionRisk, d.source)
    requires entry.call == ReconcileRisk(d.attempt, d.filled, d.fee, d.positionRisk, d.source)
    ensures Taken(s, entry).Some?
    ensures var t, u := Taken(s, entry).value, ApplyReconcile(s, d).value;
            t == u.(generation := t.generation, head := t.head)
  {
    hide ApplyReconcile, ReconcileFactsAgree, BoundAndVerified;
  }

  lemma ReconciliationAgrees(s: State, cancelled: bool, unknown: bool)
    requires Account(s, COVERED) && Reserved(s, 10.0, 0.0) && Stands(s, 2, 13, SoldStage(cancelled), 1.0)
    ensures ReconcileFactsAgree(s, 2, 1.0, 0.0, 0.0, 23)
  {
  }

  lemma WorkingAfterOne()
    ensures WorkingRisk(LATER, 1.0, 0.0) == 5.5 && Working3x(LATER, 1.0) == 0.0
  {
  }

  lemma ReconciliationLeaves(s: State, cancelled: bool, unknown: bool)
    requires ReconcileFactsAgree(s, 2, 1.0, 0.0, 0.0, 23)
    requires Account(s, COVERED) && Reserved(s, 10.0, 0.0) && Stands(s, 2, 13, SoldStage(cancelled), 1.0)
    ensures
      var r := Reservation(LATER, Left(cancelled), 0.0, 1.0, 0.0);
      ApplyReconcile(s, RiskReconciled(2, 1.0, 0.0, 0.0, 23))
        == Some(s.(reservations := s.reservations[KEY := r], positionRisk := 0.0))
  {
    WorkingAfterOne();
    hide WorkingRisk, Working3x, ReconcileFactsAgree;
  }

  // ----- The journal -----

  lemma ReductionStands(cancelled: bool, unknown: bool) returns (s: State)
    ensures Reaches(ACCOUNT, Story(cancelled, unknown)[..6], s)
    ensures Account(s, RecordedAs(22, 5000.0, 300)) && s.reservations == map[]
    ensures s.attempts.Keys == {2} && Stands(s, 2, 13, SoldStage(cancelled), 1.0)
  {
    var es := Story(cancelled, unknown);
    s := AccountIsOpened(cancelled, unknown);
    assert forall i :: 0 <= i < 11 ==> es[i].config.account == ACCOUNT;
    hide Story, Taken, Reaches, Account, Stands, SoldStage;
    LossIsRecorded(s, cancelled, unknown);
    ReachesNext(ACCOUNT, es, 2, s);
    s := Taken(s, es[2]).value;
    ReductionIsPrepared(s, cancelled, unknown);
    ReachesNext(ACCOUNT, es, 3, s);
    s := Taken(s, es[3]).value;
    ReductionSellsOne(s, cancelled, unknown);
    ReachesNext(ACCOUNT, es, 4, s);
    s := Taken(s, es[4]).value;
    AccountRecovers(s, cancelled, unknown);
    ReachesNext(ACCOUNT, es, 5, s);
    s := Taken(s, es[5]).value;
  }

  lemma LiveOrderStands(cancelled: bool, unknown: bool) returns (s: State)
    ensures Reaches(ACCOUNT, Story(cancelled, unknown)[..9], s)
    ensures Account(s, RecordedAs(22, 5000.0, 300)) && Reserved(s, 10.0, 0.0)
    ensures Stands(s, 2, 13, SoldStage(cancelled), 1.0) && Stands(s, 1, 11, LiveStage(unknown), 0.0)
  {
    var es := Story(cancelled, unknown);
    assert forall i :: 0 <= i < 11 ==> es[i].config.account == ACCOUNT;
    s := ReductionStands(cancelled, unknown);
    hide Story, Taken, Reaches, Account, Reserved, Stands, SoldStage, LiveStage;
    OrderIsReserved(s, cancelled, unknown);
    ReachesNext(ACCOUNT, es, 6, s);
    s := Taken(s, es[6]).value;
    OrderIsPrepared(s, cancelled, unknown);
    ReachesNext(ACCOUNT, es, 7, s);
    s := Taken(s, es[7]).value;
    OrderIsLive(s, cancelled, unknown);
    ReachesNext(ACCOUNT, es, 8, s);
    s := Taken(s, es[8]).value;
  }

  lemma CoverIsTaken(cancelled: bool, unknown: bool) returns (before: State, after: State)
    ensures Reaches(ACCOUNT, Story(cancelled, unknown)[..10], before)
    ensures Reaches(ACCOUNT, Story(cancelled, unknown), after)
    ensures |Written(ACCOUNT, Story(cancelled, unknown))| == 11
    ensures Written(ACCOUNT, Story(cancelled, unknown))[..10] == Written(ACCOUNT, Story(cancelled, unknown)[..10])
    ensures Reserved(before, 10.0, 0.0) && Reserved(after, Left(cancelled), 1.0)
    ensures Stands(after, 2, 13, SoldStage(cancelled), 1.0) && Stands(after, 1, 11, LiveStage(unknown), 0.0)
  {
    var es := Story(cancelled, unknown);
    assert forall i :: 0 <= i < 11 ==> es[i].config.account == ACCOUNT;
    assert es[..11] == es;
    var s := LiveOrderStands(cancelled, unknown);
    hide Story, Taken, Reaches, Account, Reserved, Stands, SoldStage, LiveStage, Left;
    SaleIsCovered(s, cancelled, unknown);
    ReachesNext(ACCOUNT, es, 9, s);
    before := Taken(s, es[9]).value;
    ReductionIsReconciled(before, cancelled, unknown);
    ReachesNext(ACCOUNT, es, 10, before);
    after := Taken(before, es[10]).value;
  }

  /**
   * A live order loses its cover. In these journals every event is what a writer decided on the journal before it,
   * and the last one reconciles the reduction. Before it ten are reserved for the live order, whose two open units
   * can lose eight; after it 5.5 are reserved, or nothing if the reduction was cancelled. It makes no difference
   * whether the live order is pending or UNKNOWN.
   */
  lemma ReconcilingASharedOrderStripsCover(cancelled: bool, unknown: bool)
    ensures
      var log := Written(ACCOUNT, Story(cancelled, unknown));
      && ByWriters(ACCOUNT, log, Story(cancelled, unknown)) && |log| == 11
      && Fold(ACCOUNT, log).readable && AdmittedJournal(log)
      && var s, t := Fold(ACCOUNT, log[..10]).state, Fold(ACCOUNT, log).state;
      && 1 in t.attempts && t.attempts[1].preparation.order == KEY && t.attempts[1].filled == 0.0
      && t.attempts[1].certainty == (if unknown then UNKNOWN else KNOWN_PENDING)
      && KEY in s.reservations && KEY in t.reservations
      && OpenLoss(t.reservations[KEY].facts, t.attempts[1].filled) == 8.0
      && s.reservations[KEY].remaining == 10.0
      && t.reservations[KEY].remaining == (if cancelled then 0.0 else 5.5)
  {
    var before, after := CoverIsTaken(cancelled, unknown);
    var log := Written(ACCOUNT, Story(cancelled, unknown));
    ByWritersIsAdmitted(ACCOUNT, log, Story(cancelled, unknown));
    hide Written, Story, ByWriters, Fold, AdmittedJournal;
  }
}
