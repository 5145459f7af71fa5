/** Journals that the writers themselves produce, and the common beginning of two concrete ones. */
module WrittenJournals {
  import opened Prelude
  import opened CapitalEnvelope
  import opened RiskBudget
  import opened Journal
  import opened Writers
  import opened RiskAccounting

  // ----- Journals by writers -----

  /** A writer's call by a session with this configuration. */
  datatype Entry = Entry(config: Config, call: Call)

  /** What the call decides on the state, as the reducer takes it. */
  ghost function Taken(s: State, entry: Entry): Option<State> {
    match Decide(entry.config, s, entry.call)
    case None => None
    case Some(d) => Apply(s, entry.config.account, Seal(s, entry.config.account, d))
  }

  ghost function Written(account: Id, entries: seq<Entry>): seq<Event> {
    if entries == [] then []
    else
      var before := Written(account, entries[..|entries| - 1]);
      var entry := entries[|entries| - 1];
      match Decide(entry.config, Fold(account, before).state, entry.call)
      case None => before
      case Some(d) => before + [Seal(Fold(account, before).state, account, d)]
  }

  /** Event `i` is what the entry decides on the state the journal had then. */
  ghost predicate DecidedBy(account: Id, log: seq<Event>, i: nat, entry: Entry)
    requires i < |log|
  {
    var s := Fold(account, log[..i]).state;
    && entry.config.account == account && Fold(account, log[..i]).readable
    && Decide(entry.config, s, entry.call) == Some(log[i].data) && log[i] == Seal(s, account, log[i].data)
  }

  /** Every event of the journal was decided by the entry at its position. */
  ghost predicate ByWriters(account: Id, log: seq<Event>, entries: seq<Entry>) {
    |log| == |entries| && forall i :: 0 <= i < |log| ==> DecidedBy(account, log, i, entries[i])
  }

  ghost predicate Reaches(account: Id, entries: seq<Entry>, s: State) {
    Fold(account, Written(account, entries)) == Folded(s, true)
        && ByWriters(account, Written(account, entries), entries)
  }

  lemma ReachesStart(account: Id)
    ensures Reaches(account, [], EMPTY_STATE)
  {
  }

  /** One more accepted entry. */
  lemma ReachesNext(account: Id, entries: seq<Entry>, i: nat, s: State)
    requires i < |entries| && entries[i].config.account == account
    requires Reaches(account, entries[..i], s) && Taken(s, entries[i]).Some?
    ensures Reaches(account, entries[..i + 1], Taken(s, entries[i]).value)
    ensures |Written(account, entries[..i + 1])| == i + 1
    ensures Written(account, entries[..i + 1])[..i] == Written(account, entries[..i])
  {
    var longer := entries[..i + 1];
    assert longer[..|longer| - 1] == entries[..i] && longer[i] == entries[i];
    var before := Written(account, entries[..i]);
    var after := Written(account, longer);
    assert after[..i] == before;
    forall j | 0 <= j < |after|
      ensures DecidedBy(account, after, j, longer[j])
    {
      if j < i {
        assert DecidedBy(account, before, j, entries[..i][j]);
        assert after[..j] == before[..j] && longer[j] == entries[..i][j];
      }
    }
  }

  lemma ByWritersIsAdmitted(account: Id, log: seq<Event>, entries: seq<Entry>)
    requires ByWriters(account, log, entries)
    ensures AdmittedJournal(log)
  {
    hide Decide, Admitted, Fold;
    forall i | 0 <= i < |log|
      ensures Admitted(log[i].data)
    {
      assert DecidedBy(account, log, i, entries[i]);
      WritersAdmit(entries[i].config, Fold(account, log[..i]).state, entries[i].call);
    }
  }

  // ----- A common beginning: bind, record, reserve -----

  const ACCOUNT: Id := 9
  const DOMAIN := Domain(7, 1, 2, 3, 4, 5, OwnReal)
  const ORDER := Order(9, 1, Sell, 2.0, 0, None, 0, 0)
  const KEY := OrderDigest(ORDER)
  const POLICY := BudgetPolicy(3, 4, 5, 0.005, 50.0, 0.0, 0.0, None)

  /** A session with this intent that decides at this time. */
  function At(intent: Id, time: Time): Config {
    Config(ACCOUNT, 10, 11, intent, 12, Some(DOMAIN), true, time, time)
  }

  /** A complete account snapshot with two units held, covering both attempts with nothing filled. */
  function SnapshotOf(source: Id, equity: real, time: Time): Snapshot {
    Snapshot(true, ACCOUNT, 7, 2, source, equity, equity, equity, time, time + 50, 0.0, true, true, map[1 := 2.0],
             map[1 := 0.0, 2 := 0.0], map[1 := 0.0, 2 := 0.0], 0.0, 0.0, None)
  }

  function RecordedAs(source: Id, equity: real, time: Time): Equity {
    Equity(equity, 0.0, 5000.0, 5000.0, equity, equity, 2, source, 7, ACCOUNT, time, time + 50, map[1 := 0.0, 2 := 0.0],
           map[1 := 0.0, 2 := 0.0], 0.0, 0.0, 0.0, true, true, map[1 := 2.0], None)
  }

  const REQUEST := RiskRequest(ORDER, SnapshotOf(20, 5000.0, 100), 0.0, 0.0, 10.0, 0.005, 4.0, 1.0, 1.0, 1.0, 1.0,
                               0.0, 0.0, false, POLICY)
  const FACTS := RiskFacts(KEY, 10.0, 2, 100, 20, 0.0, 2.0, 1.0, 4.0, 1.0, 0.005, 1.0, 1.0, 0.0, 0.0, 0.0, 0.0,
                           false, POLICY)

  function Opening(): (es: seq<Entry>)
    ensures |es| == 3
  {
    [Entry(At(11, 100), Bind(ORDER, true)),
     Entry(At(11, 100), RecordEquity(SnapshotOf(20, 5000.0, 100), 0.0, true)),
     Entry(At(11, 100), ReserveRisk(REQUEST))]
  }

  /** The state with the one reservation, this much of it remaining, and this snapshot. */
  predicate Holds(s: State, remaining: real, equity: Equity) {
    && s.reservations == map[KEY := Reservation(FACTS, remaining, 0.0, 0.0, 0.0)] && s.equity == Some(equity)
    && s.binding == Some(BindingOf(DOMAIN)) && s.positionRisk == 0.0
  }

  predicate BoundOnly(s: State) {
    && s.binding == Some(BindingOf(DOMAIN)) && s.attempts == map[] && s.reservations == map[] && s.equity == None
    && !s.breakerOpen && s.positionRisk == 0.0
  }

  lemma DomainIsBound()
    ensures Taken(EMPTY_STATE, Opening()[0]).Some? && BoundOnly(Taken(EMPTY_STATE, Opening()[0]).value)
  {
  }

  lemma EquityIsRecorded(s: State)
    requires BoundOnly(s)
    ensures Taken(s, Opening()[1]).Some?
    ensures var t := Taken(s, Opening()[1]).value;
            t.equity == Some(RecordedAs(20, 5000.0, 100)) && BoundOnly(t.(equity := None))
  {
    assert AvailableNewRiskBudget(true, true, 5000.0, 5000.0, 0.0, 0.0, 0.0, 0.005).Some?;
  }

  lemma NothingReserved(s: State)
    requires s.reservations == map[]
    ensures ReservedRisk(s) == 0.0 && Reserved3x(s) == 0.0
  {
  }

  lemma RiskIsReserved(s: State)
    requires s.equity == Some(RecordedAs(20, 5000.0, 100)) && BoundOnly(s.(equity := None))
    ensures Taken(s, Opening()[2]).Some?
    ensures var t := Taken(s, Opening()[2]).value;
            Holds(t, 10.0, RecordedAs(20, 5000.0, 100)) && t.attempts == map[] && !t.breakerOpen
  {
    NothingReserved(s);
    assert MaximumRiskQuantity(10.0, 4.0, 1.0, 1.0) == Some(2.0);
    assert StepAligned(2.0, 1.0);
    assert DrawdownFrom(5000.0, 5000.0) == 0.0;
    hide MaximumRiskQuantity, StepAligned, DrawdownFrom, MapSum;
    assert DecideAccountRisk(At(11, 100), s, REQUEST, 0.0, 0.0) == Some(RiskReserved(FACTS));
  }

  lemma OpeningReserves(rest: seq<Entry>) returns (s: State)
    ensures Reaches(ACCOUNT, (Opening() + rest)[..3], s)
    ensures Holds(s, 10.0, RecordedAs(20, 5000.0, 100)) && s.attempts == map[] && !s.breakerOpen
  {
    var es := Opening() + rest;
    assert es[..0] == [] && es[0] == Opening()[0] && es[1] == Opening()[1] && es[2] == Opening()[2];
    assert es[0].config.account == ACCOUNT && es[1].config.account == ACCOUNT && es[2].config.account == ACCOUNT;
    hide Opening, Taken, Reaches, BoundOnly, Holds;
    ReachesStart(ACCOUNT);
    DomainIsBound();
    ReachesNext(ACCOUNT, es, 0, EMPTY_STATE);
    var t := Taken(EMPTY_STATE, es[0]).value;
    EquityIsRecorded(t);
    ReachesNext(ACCOUNT, es, 1, t);
    var u := Taken(t, es[1]).value;
    RiskIsReserved(u);
    ReachesNext(ACCOUNT, es, 2, u);
    s := Taken(u, es[2]).value;
  }
}
