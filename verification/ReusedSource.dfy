/**
 * Why a reduction is tied to its snapshot only as long as the snapshot's source is not used again: dispatch compares
 * nothing but the source.
 */
module ReusedSource {
  import opened Prelude
  import opened CapitalEnvelope
  import opened Journal
  import opened JournalLaws
  import opened Writers
  import opened WrittenJournals
  import opened Protocol
  import opened Sessions
  import opened LastWord
  import opened JournalFacts

  /** One of the two units is gone, but the snapshot that says so names the same source. */
  const FEWER := SnapshotOf(21, 4000.0, 210).(positions := map[1 := 1.0])
  const RECORDED := RecordedAs(21, 4000.0, 210).(positions := map[1 := 1.0])

  const SALE := Preparation(2, 32, 13, KEY, 12, 10, 11, 2.0, Reduction(21))

  /** A reduction of both units is prepared, and then a snapshot with one unit is recorded. */
  function Story(): (es: seq<Entry>)
    ensures |es| == 5
  {
    [Entry(At(11, 100), Bind(ORDER, true)),
     Entry(At(11, 100), RecordEquity(SnapshotOf(20, 5000.0, 100), 0.0, true)),
     Entry(At(13, 200), RecordEquity(SnapshotOf(21, 4000.0, 200), 0.0, false)),
     Entry(At(13, 200), ReserveReduction(ORDER, true, 2, 32)),
     Entry(At(13, 210), RecordEquity(FEWER, 0.0, false))]
  }

  predicate Account(s: State, equity: Equity) {
    s.equity == Some(equity) && s.binding == Some(BindingOf(DOMAIN)) && !s.breakerOpen && s.reservations == map[]
  }

  predicate SaleIsPrepared(s: State) {
    s.attempts.Keys == {2} && s.attempts[2].preparation == SALE && s.attempts[2].certainty == PREPARED
  }

  lemma LossIsRecorded(s: State)
    requires Account(s, RecordedAs(20, 5000.0, 100)) && s.attempts == map[]
    ensures Taken(s, Story()[2]).Some?
    ensures var t := Taken(s, Story()[2]).value;
            Account(t, RecordedAs(21, 4000.0, 200)) && t.attempts == map[]
  {
  }

  lemma ReductionIsPrepared(s: State)
    requires Account(s, RecordedAs(21, 4000.0, 200)) && s.attempts == map[]
    ensures Taken(s, Story()[3]).Some?
    ensures var t := Taken(s, Story()[3]).value;
            Account(t, RecordedAs(21, 4000.0, 200)) && SaleIsPrepared(t)
  {
    assert DrawdownFrom(4000.0, 5000.0) == 0.2;
    hide DrawdownFrom;
  }

  lemma FewerAreRecorded(s: State)
    requires Account(s, RecordedAs(21, 4000.0, 200)) && SaleIsPrepared(s)
    ensures Taken(s, Story()[4]).Some?
    ensures var t := Taken(s, Story()[4]).value;
            Account(t, RECORDED) && SaleIsPrepared(t)
  {
  }

  lemma StoryIsWritten() returns (s: State)
    ensures Reaches(ACCOUNT, Story(), s) && Account(s, RECORDED) && SaleIsPrepared(s)
  {
    var es := Story();
    assert es[..0] == [] && es[0] == Opening()[0] && es[1] == Opening()[1] && es[..5] == es;
    ReachesStart(ACCOUNT);
    DomainIsBound();
    var t := Taken(EMPTY_STATE, es[0]).value;
    EquityIsRecorded(t);
    var u := Taken(t, es[1]).value;
    LossIsRecorded(u);
    var v := Taken(u, es[2]).value;
    ReductionIsPrepared(v);
    var w := Taken(v, es[3]).value;
    FewerAreRecorded(w);
    s := Taken(w, es[4]).value;
    hide Taken, Reaches, Account, SaleIsPrepared;
    ReachesNext(ACCOUNT, es, 0, EMPTY_STATE);
    ReachesNext(ACCOUNT, es, 1, t);
    ReachesNext(ACCOUNT, es, 2, u);
    ReachesNext(ACCOUNT, es, 3, v);
    ReachesNext(ACCOUNT, es, 4, w);
  }

  /**
   * A reduction of two units is let out to the broker although the current snapshot shows one: it names the source
   * of the snapshot that showed two. Every event of the journal is what a writer decided on the journal before it.
   */
  lemma ReusedSourceLetsOutdatedReductionOut()
    ensures
      var log := Written(ACCOUNT, Story());
      && ByWriters(ACCOUNT, log, Story()) && Fold(ACCOUNT, log).readable
      && PreparationIn(log, 2).Some? && GrantFor(At(13, 200), PreparationIn(log, 2).value).Some?
      && var g := GrantFor(At(13, 200), PreparationIn(log, 2).value).value;
      && var session := Session(At(13, 200), map[2 := g], {}, false, Idle);
      && DispatchGranted(session, log, log, g, ORDER, 215, true)
      && SnapshotIn(log) == Some(RECORDED) && RECORDED.positions[ORDER.symbol] == 1.0 && ORDER.quantity == 2.0
  {
    var s := StoryIsWritten();
    var log := Written(ACCOUNT, Story());
    AttemptsAreLastWords(ACCOUNT, log, 2);
    AccountIsItsLastWord(ACCOUNT, log);
    hide Written, Story, Fold, ByWriters, OpenIn;
    assert PreparationIn(log, 2).Some?;
  }
}
