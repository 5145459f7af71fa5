/**
 * A reserve call that binds the domain reads the journal twice and looks at the breaker only the first time.
 * What others create in between decides whether it gets its grant or ends every reading of the journal.
 */
module LateOpen {
  import opened Prelude
  import opened CapitalEnvelope
  import opened Journal
  import opened Writers
  import opened Protocol
  import opened Sessions
  import opened WrittenJournals

  /** The breaker facts of an account that has lost a fifth of its peak. */
  const BRAKE := BrakeSnapshot(Some(4000.0), Some(5000.0), None)

  const OPENED := Entry(At(11, 100), OpenBreaker(BRAKE))

  /** The two events that arrive after the binding, and the one that may follow them. */
  ghost function Arrivals(open: bool): seq<Event> {
    var log := Written(ACCOUNT, Opening() + if open then [OPENED] else []);
    if log == [] then [] else log[1..]
  }

  /** The reserve call on an empty journal, with these arrivals before its second read. */
  ghost function BindingReserve(open: bool): Reserved {
    ReserveResult(At(11, 100), false, [], ORDER, true, 1, 31, 0, [], Arrivals(open), |Arrivals(open)|, [])
  }

  lemma BreakerOpens(s: State)
    requires Holds(s, 10.0, RecordedAs(20, 5000.0, 100)) && s.attempts == map[] && !s.breakerOpen
    ensures Taken(s, OPENED).Some?
    ensures var t := Taken(s, OPENED).value;
            Holds(t, 10.0, RecordedAs(20, 5000.0, 100)) && t.attempts == map[] && t.breakerOpen
  {
    assert DrawdownFrom(4000.0, 5000.0) == 0.2;
    hide DrawdownFrom;
  }

  /** What the second read shows, without and with OPEN. */
  lemma SecondReadState(open: bool) returns (s: State)
    ensures var log := Written(ACCOUNT, Opening() + if open then [OPENED] else []);
            && Fold(ACCOUNT, log) == Folded(s, true) && |log| == (if open then 4 else 3)
            && ByWriters(ACCOUNT, log, Opening() + if open then [OPENED] else [])
    ensures Holds(s, 10.0, RecordedAs(20, 5000.0, 100)) && s.attempts == map[] && s.breakerOpen == open
  {
    var es := Opening() + if open then [OPENED] else [];
    s := OpeningReserves(if open then [OPENED] else []);
    if open {
      assert es[3] == OPENED;
      BreakerOpens(s);
      hide Opening, Holds, Taken;
      ReachesNext(ACCOUNT, es, 3, s);
      s := Taken(s, OPENED).value;
      assert es[..4] == es;
    } else {
      assert es[..3] == es;
    }
  }

  lemma PreparationIsDecided(s: State)
    requires Holds(s, 10.0, RecordedAs(20, 5000.0, 100)) && s.attempts == map[]
    ensures
      var d := DecidePreparation(At(11, 100), s, ORDER, true, 1, 31);
      && d.Some? && d.value.Prepared?
      && (Apply(s, ACCOUNT, Seal(s, ACCOUNT, d.value)).Some? <==> !s.breakerOpen)
  {
  }

  /** The journal starts with the binding, so what follows it are the arrivals. */
  lemma ArrivalsFollowTheBinding(open: bool)
    ensures
      var c := At(11, 100);
      var bind := DecideBind(c, EMPTY_STATE, ORDER, true);
      && bind.Some? && Apply(EMPTY_STATE, ACCOUNT, Seal(EMPTY_STATE, ACCOUNT, bind.value)).Some?
      && Written(ACCOUNT, Opening() + if open then [OPENED] else [])
          == [Seal(EMPTY_STATE, ACCOUNT, bind.value)] + Arrivals(open)
  {
    var es := Opening() + if open then [OPENED] else [];
    var log := Written(ACCOUNT, es);
    var s := SecondReadState(open);
    assert DecidedBy(ACCOUNT, log, 0, es[0]);
    assert log[..0] == [] && es[0] == Opening()[0];
    assert log == log[..1] + log[1..];
    DomainIsBound();
  }

  lemma BindingIsDone(open: bool)
    ensures
      var c := At(11, 100);
      var e := Seal(EMPTY_STATE, ACCOUNT, DecideBind(c, EMPTY_STATE, ORDER, true).value);
      BindingReserve(open) == ReserveAgain(c, [e], ORDER, true, 1, 31, Arrivals(open), |Arrivals(open)|, [])
  {
    var c := At(11, 100);
    var log: seq<Event> := [];
    ArrivalsFollowTheBinding(open);
    DecisionsOfReserve(c, log, ORDER, true, 1, 31);
    var e := Seal(EMPTY_STATE, ACCOUNT, DecideBind(c, EMPTY_STATE, ORDER, true).value);
    AppendFolds(ACCOUNT, log, e);
    assert log[..0] == log && log + [e] == [e] && [e] + [] == [e];
    hide ReserveAgain, DecideOn, DecideBind, Arrivals;
  }

  /**
   * What the call that binds an account comes to depends on what arrives before its second read. A recorded
   * snapshot and a reservation of the same order let it prepare the attempt and return a grant. If OPEN arrives
   * too, its new-risk preparation is created all the same, and no continuation of the journal can be read.
   */
  lemma BindingReserveMayGrantOrEndTheJournal(more: seq<Event>)
    ensures
      var granted, lost := BindingReserve(false), BindingReserve(true);
      && ByWriters(ACCOUNT, Written(ACCOUNT, Opening() + [OPENED]), Opening() + [OPENED])
      && granted.outcome.Done? && GrantFor(At(11, 100), granted.outcome.event).Some?
      && lost.outcome.Unconfirmed? && Replay(ACCOUNT, lost.log + more).None?
  {
    SecondHalf(false);
    SecondHalf(true);
    var _ := SecondReadState(true);
    var lost := BindingReserve(true);
    hide BindingReserve, Written, ByWriters;
    var n := |lost.log|;
    assert (lost.log + more)[..n] == lost.log;
    FoldStaysUnreadable(ACCOUNT, lost.log + more, n);
  }

  /** Going on from a journal read to its end: the preparation is created, and confirmed if the reducer takes it. */
  lemma PreparedAgain(c: Config, bound: seq<Event>, arrivals: seq<Event>)
    requires Fold(c.account, bound + arrivals).readable
    requires DecidePreparation(c, Fold(c.account, bound + arrivals).state, ORDER, true, 1, 31).Some?
    ensures
      var log := bound + arrivals;
      var s := Fold(c.account, log).state;
      var e := Seal(s, c.account, DecidePreparation(c, s, ORDER, true, 1, 31).value);
      var r := ReserveAgain(c, bound, ORDER, true, 1, 31, arrivals, |arrivals|, []);
      && r.log == log + [e]
      && (if Apply(s, c.account, e).Some? then r.outcome == Done(e)
          else r.outcome == Unconfirmed(e) && !Fold(c.account, r.log).readable)
  {
    var log := bound + arrivals;
    var s := Fold(c.account, log).state;
    hide Fold, Apply, DecidePreparation, DecideOn, Seal, AppendOutcome;
    assert log[..|log|] == log;
    DecisionsOfReserve(c, log, ORDER, true, 1, 31);
    OutcomeOfWholeRead(c.account, log, DecidePreparation(c, s, ORDER, true, 1, 31).value);
  }

  lemma SecondHalf(open: bool)
    ensures
      var r := BindingReserve(open);
      if open then r.outcome.Unconfirmed? && !Fold(ACCOUNT, r.log).readable
      else r.outcome.Done? && GrantFor(At(11, 100), r.outcome.event).Some?
  {
    var c := At(11, 100);
    var s := SecondReadState(open);
    ArrivalsFollowTheBinding(open);
    BindingIsDone(open);
    PreparationIsDecided(s);
    var bound := [Seal(EMPTY_STATE, ACCOUNT, DecideBind(c, EMPTY_STATE, ORDER, true).value)];
    hide BindingReserve, Arrivals, DecidePreparation, Written, DecideBind, Holds, Fold, Apply, ReserveAgain;
    PreparedAgain(c, bound, Arrivals(open));
  }
}
