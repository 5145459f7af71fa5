/** When dispatch calls the broker, in terms of the two journals it has read. */
module DispatchAnswers {
  import opened Prelude
  import opened Journal
  import opened JournalLaws
  import opened Writers
  import opened Protocol
  import opened Sessions
  import opened LastWord
  import opened JournalFacts
  import opened Readable
  import opened Answers

  /** The grant's own preparation stands in the journal, nothing has been heard of it, and OPEN does not forbid it. */
  predicate GrantStands(log: seq<Event>, g: Grant) {
    && var p := PreparationIn(log, g.attempt);
    && p.Some? && LastObservation(log, g.attempt).None?
    && p.value.sequence == g.generation && p.value.digest == g.digest
    && p.value.data.preparation.fence == g.fence && p.value.data.preparation.order == g.order
    && (p.value.data.preparation.purpose.NewRisk? ==> !OpenIn(log))
  }

  /**
   * The current snapshot is the one the submission was prepared against: the one its risk was reserved on, or for a
   * reduction the one it was proven on, still without an open order.
   */
  predicate PreparedOnSnapshot(log: seq<Event>, p: Preparation) {
    match p.purpose
    case Reduction(source) =>
      SnapshotIn(log).Some? && SnapshotIn(log).value.source == source && SnapshotIn(log).value.openOrdersEmpty
    case _ => NamesCurrentSnapshot(log, p.order)
  }

  predicate SnapshotCurrentAt(log: seq<Event>, now: Time) {
    SnapshotIn(log).Some? && SnapshotIn(log).value.valuationAt <= now < SnapshotIn(log).value.validUntil
  }

  /** What a session with a domain checks on its first read. */
  predicate AccountStands(c: Config, log: seq<Event>, p: Preparation, now: Time) {
    && c.domain.Some?
    && BindingIn(log) == Some(Binding(c.domain.value.key, c.domain.value.accountType, c.domain.value.currency))
    && PreparedOnSnapshot(log, p) && SnapshotCurrentAt(log, now)
  }

  ghost predicate MayCallBroker(s: Session, early: seq<Event>, current: seq<Event>, g: Grant, order: Order, now: Time,
                                verifiedNow: bool) {
    && !s.failed && g.attempt in s.issued && s.issued[g.attempt] == g && g.attempt !in s.used
    && order.account == s.config.account && g.order.order == order
    && Fold(s.config.account, early).readable && GrantStands(early, g)
    && Fold(s.config.account, current).readable && GrantStands(current, g)
    && (s.config.domain.Some? ==>
          verifiedNow && AccountStands(s.config, early, PreparationIn(early, g.attempt).value.data.preparation, now))
  }

  lemma StandsExactly(s: Session, log: seq<Event>, g: Grant)
    requires Fold(s.config.account, log).readable
    ensures
      var t := Fold(s.config.account, log).state;
      Owns(s, t, g) && MayDispatch(t.attempts[g.attempt], t)
      <==> g.attempt in s.issued && s.issued[g.attempt] == g && GrantStands(log, g)
    ensures
      var t := Fold(s.config.account, log).state;
      g.attempt in t.attempts ==>
        PreparationIn(log, g.attempt).Some?
        && t.attempts[g.attempt].preparation == PreparationIn(log, g.attempt).value.data.preparation
  {
    AttemptsAreLastWords(s.config.account, log, g.attempt);
    AccountIsItsLastWord(s.config.account, log);
    FoldIsCoherent(s.config.account, log);
    var t := Fold(s.config.account, log).state;
    if g.attempt in t.attempts {
      assert AttemptCoherent(t.attempts[g.attempt]);
    }
    hide Fold, StateCoherent, OpenIn, SnapshotIn, LastStamp;
  }

  lemma FactsExactly(c: Config, log: seq<Event>, a: Attempt, now: Time, verifiedNow: bool)
    requires Fold(c.account, log).readable && a.preparation.order.order.account == c.account
    ensures DispatchFactsCurrent(c, Fold(c.account, log).state, a, now, verifiedNow) <==>
              (c.domain.Some? ==> verifiedNow && AccountStands(c, log, a.preparation, now))
  {
    AccountIsItsLastWord(c.account, log);
    ReservationsAgree(c.account, log, a.preparation.order);
    if SnapshotIn(log).Some? {
      SnapshotIsSound(c.account, log);
    }
    hide Fold, OpenIn;
  }

  /** Dispatch goes through to the broker exactly when grant and account stand, as far as the two reads show. */
  lemma DispatchAnswersExactly(s: Session, early: seq<Event>, current: seq<Event>, g: Grant, order: Order, now: Time,
                               verifiedNow: bool)
    ensures DispatchGranted(s, early, current, g, order, now, verifiedNow) <==>
              MayCallBroker(s, early, current, g, order, now, verifiedNow)
  {
    var account := s.config.account;
    hide Owns, MayDispatch, GrantStands, DispatchFactsCurrent, AccountStands, Fold;
    if Fold(account, early).readable && Fold(account, current).readable {
      StandsExactly(s, early, g);
      StandsExactly(s, current, g);
      var t := Fold(account, early).state;
      if g.attempt in t.attempts && Owns(s, t, g) && order.account == account && g.order.order == order {
        OwnedOrder(s, t, g);
        FactsExactly(s.config, early, t.attempts[g.attempt], now, verifiedNow);
      }
      OwnedIsKnown(s, t, g);
    }
  }

  lemma OwnedOrder(s: Session, t: State, g: Grant)
    requires Owns(s, t, g)
    ensures t.attempts[g.attempt].preparation.order == g.order
  {
  }

  lemma OwnedIsKnown(s: Session, t: State, g: Grant)
    ensures Owns(s, t, g) ==> g.attempt in t.attempts && g.attempt in s.issued && s.issued[g.attempt] == g
  {
  }

  /** No event from here on records a snapshot of this source. */
  ghost predicate NoSnapshotFrom(log: seq<Event>, n: nat, source: Id) {
    forall i :: n <= i < |log| && log[i].data.EquityObserved? ==> log[i].data.snapshot.source != source
  }

  lemma {:induction false} SnapshotIsAmongLater(log: seq<Event>, n: nat, source: Id)
    requires n < |log| && log[n].data.EquityObserved? && NoSnapshotFrom(log, n, source)
    ensures SnapshotIn(log).Some? && SnapshotIn(log).value.source != source
    decreases |log|
  {
    var last := |log| - 1;
    if !log[last].data.EquityObserved? {
      assert NoSnapshotFrom(log[..last], n, source) by {
        assert forall i :: n <= i < last ==> log[..last][i] == log[i];
      }
      SnapshotIsAmongLater(log[..last], n, source);
    }
  }

  /**
   * Recording another snapshot ends a prepared reduction: on a bound account it is not dispatched on any journal in
   * which a snapshot of another source was recorded, unless a snapshot of its own source was recorded after it.
   */
  lemma NewerSnapshotEndsReduction(s: Session, early: seq<Event>, current: seq<Event>, g: Grant, order: Order,
                                   now: Time, verifiedNow: bool, source: Id, n: nat)
    requires s.config.domain.Some? && PreparationIn(early, g.attempt).Some?
    requires PreparationIn(early, g.attempt).value.data.preparation.purpose == Reduction(source)
    requires n < |early| && early[n].data.EquityObserved? && NoSnapshotFrom(early, n, source)
    ensures !DispatchGranted(s, early, current, g, order, now, verifiedNow)
  {
    DispatchAnswersExactly(s, early, current, g, order, now, verifiedNow);
    SnapshotIsAmongLater(early, n, source);
    hide DispatchGranted, GrantStands, SnapshotIn, Fold;
  }

  /**
   * A reduction goes out on the snapshot it was proven on: the early read shows a current snapshot from the source
   * that stands in the attempt's preparation event, with no order open.
   */
  lemma DispatchedReductionIsCurrent(s: Session, early: seq<Event>, current: seq<Event>, g: Grant, order: Order,
                                     now: Time, verifiedNow: bool)
    requires DispatchGranted(s, early, current, g, order, now, verifiedNow) && s.config.domain.Some?
    requires Fold(s.config.account, early).state.attempts[g.attempt].preparation.purpose.Reduction?
    ensures
      var t := Fold(s.config.account, early).state;
      && 1 <= g.generation <= |early| && early[g.generation - 1].data.Prepared? && t.equity.Some?
      && early[g.generation - 1].data.preparation.attempt == g.attempt
      && early[g.generation - 1].data.preparation.purpose == Reduction(t.equity.value.source)
      && t.equity.value.openOrdersEmpty && t.equity.value.openOrdersComplete
      && t.equity.value.valuationAt <= now < t.equity.value.validUntil
  {
    var account := s.config.account;
    DispatchAnswersExactly(s, early, current, g, order, now, verifiedNow);
    assert g.attempt in Fold(account, early).state.attempts;
    hide DispatchGranted;
    AttemptOrigin(account, early, g.attempt);
    AttemptsAreLastWords(account, early, g.attempt);
    AccountIsItsLastWord(account, early);
    FoldIsCoherent(account, early);
    SnapshotIsSound(account, early);
    hide Fold, StateCoherent, SnapshotIn, OpenIn;
  }

  /** In the protocol such a reduction is not let in: the step changes nothing. */
  lemma NewerSnapshotKeepsReductionOut(w: World, sid: Sid, seen: nat, attempt: Id, order: Order, now: Time,
                                       verifiedNow: bool, source: Id, n: nat)
    requires Inv(w) && sid in w.sessions && w.sessions[sid].config.domain.Some? && n < seen <= |w.log|
    requires PreparationIn(w.log[..seen], attempt).Some?
    requires PreparationIn(w.log[..seen], attempt).value.data.preparation.purpose == Reduction(source)
    requires w.log[n].data.EquityObserved? && NoSnapshotFrom(w.log[..seen], n, source)
    ensures Next(w, EnterDispatch(sid, seen, attempt, order, now, verifiedNow)) == w
  {
    SessionInOrder(w, sid);
    var early, session := w.log[..seen], w.sessions[sid];
    assert early[n] == w.log[n];
    SnapshotIsAmongLater(early, n, source);
    var a := EnterDispatch(sid, seen, attempt, order, now, verifiedNow);
    hide Inv, SnapshotIn, NoSnapshotFrom, DispatchFactsCurrent;
    if DispatchEnabled(w, a) {
      var s := Fold(w.account, early).state;
      var g := session.issued[attempt];
      assert g.attempt == attempt;
      StandsExactly(session, early, g);
      FactsExactly(session.config, early, s.attempts[attempt], now, verifiedNow);
      hide Fold, Owns, MayDispatch;
      assert false;
    }
  }

  lemma {:induction false} SnapshotUnlessLater(log: seq<Event>, n: nat)
    requires n <= |log|
    ensures SnapshotIn(log) == SnapshotIn(log[..n])
            || exists i :: n <= i < |log| && log[i].data.EquityObserved?
                           && SnapshotIn(log) == Some(log[i].data.snapshot)
    decreases |log|
  {
    if n == |log| {
      assert log[..n] == log;
    } else {
      var last := |log| - 1;
      assert log[..last][..n] == log[..n];
      SnapshotUnlessLater(log[..last], n);
      if log[last].data.EquityObserved? {
        assert SnapshotIn(log) == Some(log[last].data.snapshot);
      } else if i :| n <= i < last && log[..last][i].data.EquityObserved?
                     && SnapshotIn(log[..last]) == Some(log[..last][i].data.snapshot) {
        assert log[i] == log[..last][i];
      }
    }
  }

  lemma SnapshotsGetNewer(account: Id, log: seq<Event>, longer: seq<Event>)
    requires Fold(account, longer).readable && log <= longer && SnapshotIn(log).Some?
    ensures Fold(account, log).readable
    ensures SnapshotIn(longer).Some? && SnapshotIn(log).value.valuationAt <= SnapshotIn(longer).value.valuationAt
  {
    FoldEvolves(account, log, longer);
    AccountIsItsLastWord(account, log);
    AccountIsItsLastWord(account, longer);
    hide Fold, OpenIn, SnapshotIn;
  }

  lemma RecordedIsNewer(account: Id, log: seq<Event>, e: Event)
    requires Fold(account, log + [e]).readable && e.data.EquityObserved? && SnapshotIn(log).Some?
    ensures SnapshotIn(log + [e]).Some?
    ensures SnapshotIn(log).value.valuationAt < SnapshotIn(log + [e]).value.valuationAt
  {
    assert (log + [e])[..|log|] == log;
    AccountIsItsLastWord(account, log);
    OnlyEquityEventsMoveEquity(Fold(account, log).state, account, e);
    hide Apply, OpenIn;
  }

  /** Once another snapshot is recorded, the current one is never again the same. */
  lemma SnapshotMovesOn(account: Id, log: seq<Event>, n: nat, i: nat)
    requires Fold(account, log).readable && n <= i < |log| && log[i].data.EquityObserved?
    requires SnapshotIn(log[..n]).Some?
    ensures SnapshotIn(log) != SnapshotIn(log[..n])
  {
    hide Fold, SnapshotIn;
    var at := log[..i];
    assert log[..i + 1] == at + [log[i]];
    FoldEvolves(account, at, log);
    FoldEvolves(account, log[..i + 1], log);
    SnapshotsGetNewer(account, log[..n], at);
    RecordedIsNewer(account, at, log[i]);
    SnapshotsGetNewer(account, at + [log[i]], log);
  }

  /**
   * The snapshot a reduction goes out on is the very one it was prepared on, exactly when no snapshot recorded after
   * its preparation has the same source.
   */
  lemma ReductionSnapshotIsUnchanged(s: Session, early: seq<Event>, current: seq<Event>, g: Grant, order: Order,
                                     now: Time, verifiedNow: bool)
    requires DispatchGranted(s, early, current, g, order, now, verifiedNow) && s.config.domain.Some?
    requires Fold(s.config.account, early).state.attempts[g.attempt].preparation.purpose.Reduction?
    requires 1 <= g.generation <= |early| && SnapshotIn(early[..g.generation - 1]).Some?
    ensures
      var source := Fold(s.config.account, early).state.attempts[g.attempt].preparation.purpose.source;
      SnapshotIn(early) == SnapshotIn(early[..g.generation - 1]) <==> NoSnapshotFrom(early, g.generation - 1, source)
  {
    var account := s.config.account;
    DispatchedReductionIsCurrent(s, early, current, g, order, now, verifiedNow);
    var x := Fold(account, early).state.attempts[g.attempt];
    AccountIsItsLastWord(account, early);
    hide DispatchGranted, Fold;
    var n, source := g.generation - 1, x.preparation.purpose.source;
    assert source == SnapshotIn(early).value.source by { AttemptAnswers(account, early, g.attempt); }
    SnapshotUnlessLater(early, n);
    if !NoSnapshotFrom(early, n, source) {
      var i :| n <= i < |early| && early[i].data.EquityObserved? && early[i].data.snapshot.source == source;
      SnapshotMovesOn(account, early, n, i);
    }
  }
}
