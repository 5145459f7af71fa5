/**
 * Why the bound on committed risk asks for one attempt per order: a journal that the writers themselves produce,
 * in which a reduction reuses the order of a finished submission and reconciling it reserves the amount again.
 */
module SharedOrder {
  import opened Prelude
  import opened CapitalEnvelope
  import opened Journal
  import opened Writers
  import opened RiskAccounting
  import opened WrittenJournals

  const REJECTED := Report(RejectedUpper, None, 0.0, None, false)
  const ACKNOWLEDGED := Report(Submitted, Some(5), 0.0, None, false)

  /**
   * The order is reserved, prepared and rejected. The account loses a fifth of its equity and the reservation is
   * released against the new snapshot. Past the brake another intent sells the same two units as a reduction, which
   * the broker acknowledges, and a third snapshot lets that attempt be reconciled too.
   */
  function Continuation(): (es: seq<Entry>)
    ensures |es| == 8
  {
    [Entry(At(11, 100), ReserveOrder(ORDER, false, 1, 31)),
     Entry(At(11, 100), RecordObservation(1, REJECTED, None)),
     Entry(At(11, 200), RecordEquity(SnapshotOf(21, 4000.0, 200), 0.0, false)),
     Entry(At(11, 200), ReconcileRisk(1, 0.0, 0.0, 0.0, 21)),
     Entry(At(13, 200), ReserveReduction(ORDER, true, 2, 32)),
     Entry(At(13, 200), RecordObservation(2, ACKNOWLEDGED, None)),
     Entry(At(13, 300), RecordEquity(SnapshotOf(22, 4000.0, 300), 0.0, false)),
     Entry(At(13, 300), ReconcileRisk(2, 0.0, 0.0, 0.0, 22))]
  }

  function Story(): (es: seq<Entry>)
    ensures |es| == 11
  {
    Opening() + Continuation()
  }

  // ----- Stage by stage -----

  /** The first attempt of the order, in this stage and with nothing filled. */
  predicate First(s: State, certainty: Certainty) {
    && 1 in s.attempts && s.attempts[1].certainty == certainty && s.attempts[1].filled == 0.0
    && s.attempts[1].preparation.intent == 11 && s.attempts[1].preparation.order == KEY
    && s.attempts[1].preparation.quantity == 2.0 && (certainty == PREPARED ==> s.attempts[1].observation.None?)
  }

  predicate Second(s: State, certainty: Certainty) {
    && 2 in s.attempts && s.attempts[2].certainty == certainty && s.attempts[2].filled == 0.0
    && s.attempts[2].preparation.order == KEY && s.attempts[2].preparation.quantity == 2.0
    && (certainty == PREPARED ==> s.attempts[2].observation.None?)
  }

  lemma OrderIsPrepared(s: State)
    requires Holds(s, 10.0, RecordedAs(20, 5000.0, 100)) && s.attempts == map[] && !s.breakerOpen
    ensures Taken(s, Continuation()[0]).Some?
    ensures var t := Taken(s, Continuation()[0]).value;
            Holds(t, 10.0, RecordedAs(20, 5000.0, 100)) && First(t, PREPARED) && t.attempts.Keys == {1}
  {
  }

  lemma OrderIsRejected(s: State)
    requires Holds(s, 10.0, RecordedAs(20, 5000.0, 100)) && First(s, PREPARED) && s.attempts.Keys == {1}
    ensures Taken(s, Continuation()[1]).Some?
    ensures var t := Taken(s, Continuation()[1]).value;
            Holds(t, 10.0, RecordedAs(20, 5000.0, 100)) && First(t, TERMINAL) && t.attempts.Keys == {1}
  {
  }

  lemma LossIsRecorded(s: State)
    requires Holds(s, 10.0, RecordedAs(20, 5000.0, 100)) && First(s, TERMINAL) && s.attempts.Keys == {1}
    ensures Taken(s, Continuation()[2]).Some?
    ensures var t := Taken(s, Continuation()[2]).value;
            Holds(t, 10.0, RecordedAs(21, 4000.0, 200)) && First(t, TERMINAL) && t.attempts.Keys == {1}
  {
  }

  lemma ReservationIsReleased(s: State)
    requires Holds(s, 10.0, RecordedAs(21, 4000.0, 200)) && First(s, TERMINAL) && s.attempts.Keys == {1}
    ensures Taken(s, Continuation()[3]).Some?
    ensures var t := Taken(s, Continuation()[3]).value;
            Holds(t, 0.0, RecordedAs(21, 4000.0, 200)) && First(t, TERMINAL) && t.attempts.Keys == {1}
  {
  }

  lemma ReductionIsPrepared(s: State)
    requires Holds(s, 0.0, RecordedAs(21, 4000.0, 200)) && First(s, TERMINAL) && s.attempts.Keys == {1}
    ensures Taken(s, Continuation()[4]).Some?
    ensures var t := Taken(s, Continuation()[4]).value;
            Holds(t, 0.0, RecordedAs(21, 4000.0, 200)) && First(t, TERMINAL) && Second(t, PREPARED)
  {
    assert DrawdownFrom(4000.0, 5000.0) == 0.2;
    hide DrawdownFrom;
  }

  lemma ReductionIsAcknowledged(s: State)
    requires Holds(s, 0.0, RecordedAs(21, 4000.0, 200)) && First(s, TERMINAL) && Second(s, PREPARED)
    ensures Taken(s, Continuation()[5]).Some?
    ensures var t := Taken(s, Continuation()[5]).value;
            Holds(t, 0.0, RecordedAs(21, 4000.0, 200)) && First(t, TERMINAL) && Second(t, KNOWN_PENDING)
  {
  }

  lemma SnapshotIsRecorded(s: State)
    requires Holds(s, 0.0, RecordedAs(21, 4000.0, 200)) && First(s, TERMINAL) && Second(s, KNOWN_PENDING)
    ensures Taken(s, Continuation()[6]).Some?
    ensures var t := Taken(s, Continuation()[6]).value;
            Holds(t, 0.0, RecordedAs(22, 4000.0, 300)) && First(t, TERMINAL) && Second(t, KNOWN_PENDING)
  {
  }

  lemma ReductionIsReconciled(s: State)
    requires Holds(s, 0.0, RecordedAs(22, 4000.0, 300)) && First(s, TERMINAL) && Second(s, KNOWN_PENDING)
    ensures Taken(s, Continuation()[7]).Some?
    ensures var t := Taken(s, Continuation()[7]).value;
            Holds(t, 10.0, RecordedAs(22, 4000.0, 300)) && First(t, TERMINAL) && Second(t, KNOWN_PENDING)
  {
    hide WorkingRisk, Working3x, DigestOf;
    WorkingRiskAtZero(FACTS);
    assert ReconcileFactsAgree(s, 2, 0.0, 0.0, 0.0, 22);
    hide ReconcileFactsAgree;
    var r := Reservation(FACTS, 10.0, 0.0, 0.0, 0.0);
    var d := RiskReconciled(2, 0.0, 0.0, 0.0, 22);
    assert ApplyReconcile(s, d) == Some(s.(reservations := s.reservations[KEY := r], positionRisk := 0.0));
    hide ApplyReconcile;
  }

  // ----- The journal -----

  lemma StoryEntry(i: nat)
    requires i < 8
    ensures Story()[3 + i] == Continuation()[i] && Story()[3 + i].config.account == ACCOUNT
    ensures (Opening() + Continuation())[..3] == Story()[..3]
  {
  }

  lemma FirstUseIsReleased() returns (s: State)
    ensures Reaches(ACCOUNT, Story()[..7], s)
    ensures Holds(s, 0.0, RecordedAs(21, 4000.0, 200)) && First(s, TERMINAL) && s.attempts.Keys == {1}
  {
    var es, rest := Story(), Continuation();
    s := OpeningReserves(rest);
    StoryEntry(0);
    StoryEntry(1);
    StoryEntry(2);
    StoryEntry(3);
    hide Story, Continuation, Taken, Reaches, Holds, First, Opening;
    OrderIsPrepared(s);
    ReachesNext(ACCOUNT, es, 3, s);
    s := Taken(s, rest[0]).value;
    OrderIsRejected(s);
    ReachesNext(ACCOUNT, es, 4, s);
    s := Taken(s, rest[1]).value;
    LossIsRecorded(s);
    ReachesNext(ACCOUNT, es, 5, s);
    s := Taken(s, rest[2]).value;
    ReservationIsReleased(s);
    ReachesNext(ACCOUNT, es, 6, s);
    s := Taken(s, rest[3]).value;
  }

  lemma SecondUseIsReconciled() returns (before: State, after: State)
    ensures Reaches(ACCOUNT, Story()[..10], before) && Reaches(ACCOUNT, Story(), after)
    ensures |Written(ACCOUNT, Story())| == 11 && Written(ACCOUNT, Story())[..10] == Written(ACCOUNT, Story()[..10])
    ensures Holds(before, 0.0, RecordedAs(22, 4000.0, 300)) && Holds(after, 10.0, RecordedAs(22, 4000.0, 300))
    ensures First(after, TERMINAL) && Second(after, KNOWN_PENDING)
  {
    var es, rest := Story(), Continuation();
    var s := FirstUseIsReleased();
    StoryEntry(4);
    StoryEntry(5);
    StoryEntry(6);
    StoryEntry(7);
    assert es[..11] == es;
    hide Story, Continuation, Taken, Reaches, Holds, First, Second, Opening;
    ReductionIsPrepared(s);
    ReachesNext(ACCOUNT, es, 7, s);
    s := Taken(s, rest[4]).value;
    ReductionIsAcknowledged(s);
    ReachesNext(ACCOUNT, es, 8, s);
    s := Taken(s, rest[5]).value;
    SnapshotIsRecorded(s);
    ReachesNext(ACCOUNT, es, 9, s);
    before := Taken(s, rest[6]).value;
    ReductionIsReconciled(before);
    ReachesNext(ACCOUNT, es, 10, before);
    after := Taken(before, rest[7]).value;
  }

  lemma CommittedOfOne(s: State, remaining: real, equity: Equity)
    requires Holds(s, remaining, equity)
    ensures Committed(s) == remaining
  {
    var m := map k | k in s.reservations :: s.reservations[k].remaining;
    assert m == map[KEY := remaining] && (m - {KEY}).Keys == {};
    MapSumSplit(m, KEY);
    MapSumEmpty(m - {KEY});
  }

  lemma LastIsReconciliation()
    ensures var log := Written(ACCOUNT, Story());
            ByWriters(ACCOUNT, log, Story()) ==> log[10].data.RiskReconciled?
  {
    var log := Written(ACCOUNT, Story());
    StoryEntry(7);
    if ByWriters(ACCOUNT, log, Story()) {
      assert DecidedBy(ACCOUNT, log, 10, Story()[10]);
    }
  }

  /**
   * The condition "one attempt per order" cannot be dropped. In this journal every event is what a writer decided
   * on the journal before it, the last one is a reconciliation, and it raises committed risk from nothing to the
   * whole reservation.
   */
  lemma ReconcilingASharedOrderRaisesCommitted()
    ensures
      var longer := Written(ACCOUNT, Story());
      && ByWriters(ACCOUNT, longer, Story()) && |longer| == 11 && Quiet(longer[10].data)
      && Fold(ACCOUNT, longer).readable && AdmittedJournal(longer)
      && !OneAttemptPerOrder(Fold(ACCOUNT, longer).state)
      && Committed(Fold(ACCOUNT, longer[..10]).state) == 0.0 && Committed(Fold(ACCOUNT, longer).state) == 10.0
  {
    var before, after := SecondUseIsReconciled();
    var longer := Written(ACCOUNT, Story());
    LastIsReconciliation();
    ByWritersIsAdmitted(ACCOUNT, longer, Story());
    CommittedOfOne(before, 0.0, RecordedAs(22, 4000.0, 300));
    CommittedOfOne(after, 10.0, RecordedAs(22, 4000.0, 300));
    hide Written, Story, ByWriters, Fold, Holds, AdmittedJournal;
    assert after.attempts[1].preparation.order == after.attempts[2].preparation.order;
  }
}
